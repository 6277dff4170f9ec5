// agent/value.go: samples become one value, the value becomes the feed's
// integer, the integer becomes text.
module Value {
  import opened Basics
  import opened Median
  import Decimal

  // ---- samples

  datatype Sample = Sample(source: string, num: Option<Rat>, lbl: string, err: string)

  datatype AggregateError =
    | TooFewSources(answered: nat, total: nat, required: int)
    | NoPlurality

  datatype Answer = Number(rat: Rat) | Category(name: string)

  function Required(minSources: int): pos {
    if minSources < 1 then 1 else minSources
  }

  /** The sample's answer to a numeric feed, if it has one. */
  function NumberOf(s: Sample): seq<Rat> {
    if s.err == "" && s.num.Some? then [s.num.value] else []
  }

  /** The sample's answer to a categorical feed, if it has one. */
  function LabelOf(s: Sample): seq<string> {
    if s.err == "" && s.lbl != "" then [s.lbl] else []
  }

  function Numbers(samples: seq<Sample>): seq<Rat> {
    Collect(samples, NumberOf)
  }

  function Labels(samples: seq<Sample>): seq<string> {
    Collect(samples, LabelOf)
  }

  /** A label with strictly more votes than any other. */
  ghost predicate StrictPlurality(votes: multiset<string>, winner: string) {
    winner in votes && forall l :: l in votes && l != winner ==> votes[l] < votes[winner]
  }

  /** What Aggregate promises of a numeric feed, whatever order it worked in. */
  ghost predicate IsMedianAnswer(samples: seq<Sample>, required: pos, r: Result<Answer, AggregateError>) {
    var vals := Numbers(samples);
    if |vals| < required then r == Err(TooFewSources(|vals|, |samples|, required))
    else r.Ok? && r.value.Number? && IsLowerMedian(vals, r.value.rat)
  }

  /** What Aggregate promises of a categorical feed, whatever order it worked in. */
  ghost predicate IsPluralityAnswer(samples: seq<Sample>, required: pos, r: Result<Answer, AggregateError>) {
    var votes := Labels(samples);
    if |votes| < required then r == Err(TooFewSources(|votes|, |samples|, required))
    else if exists l :: StrictPlurality(multiset(votes), l) then
      r.Ok? && r.value.Category? && StrictPlurality(multiset(votes), r.value.name)
    else r == Err(NoPlurality)
  }

  ghost predicate IsAggregate(samples: seq<Sample>, numeric: bool, minSources: int,
                              r: Result<Answer, AggregateError>) {
    if numeric then IsMedianAnswer(samples, Required(minSources), r)
    else IsPluralityAnswer(samples, Required(minSources), r)
  }

  // ---- the median branch

  /**
   * The library sort, of which Aggregate may assume only this contract: an
   * ascending permutation, in place.
   */
  method SortSlice(vals: array<Rat>)
    modifies vals
    ensures Sorted(vals[..])
    ensures multiset(vals[..]) == multiset(old(vals[..]))
  {
    for i := 0 to vals.Length
      invariant Sorted(vals[..i])
      invariant multiset(vals[..]) == multiset(old(vals[..]))
    {
      Insert(vals, i);
    }
    assert vals[..] == vals[..vals.Length];
  }

  method Insert(vals: array<Rat>, i: nat)
    requires i < vals.Length && Sorted(vals[..i])
    modifies vals
    ensures Sorted(vals[..i + 1])
    ensures multiset(vals[..]) == multiset(old(vals[..]))
  {
    hide Less, LessEq;
    var j := i;
    assert SortedBut(vals[..], j, i);
    while 0 < j && Less(vals[j], vals[j - 1])
      invariant 0 <= j <= i
      invariant multiset(vals[..]) == multiset(old(vals[..]))
      invariant SortedBut(vals[..], j, i)
    {
      hide SortedBut, Less;
      ghost var s := vals[..];
      vals[j], vals[j - 1] := vals[j - 1], vals[j];
      assert vals[..] == s[j := s[j - 1]][j - 1 := s[j]];
      SwapDown(s, j, i);
      j := j - 1;
    }
    InPlace(vals[..], j, i);
  }

  /** The first i+1 elements are in order, but that the one at place j may belong further down. */
  predicate SortedBut(s: seq<Rat>, j: nat, i: nat)
    requires i < |s|
  {
    forall a, b :: 0 <= a < b <= i && b != j ==> LessEq(s[a], s[b])
  }

  lemma SwapDown(s: seq<Rat>, j: nat, i: nat)
    requires 0 < j <= i < |s| && SortedBut(s, j, i) && Less(s[j], s[j - 1])
    ensures SortedBut(s[j := s[j - 1]][j - 1 := s[j]], j - 1, i)
    ensures multiset(s[j := s[j - 1]][j - 1 := s[j]]) == multiset(s)
  {
    hide Less, LessEq;
    LessTotal(s[j], s[j - 1]);
  }

  /** The inserted element, at place j, is where it belongs. */
  lemma InPlace(s: seq<Rat>, j: nat, i: nat)
    requires j <= i < |s| && SortedBut(s, j, i)
    requires j == 0 || !Less(s[j], s[j - 1])
    ensures Sorted(s[..i + 1])
  {
    hide Less, LessEq;
    forall a | 0 <= a < j
      ensures LessEq(s[a], s[j])
    {
      LessTotal(s[j], s[j - 1]);
      if a < j - 1 {
        LessEqTransitive(s[a], s[j - 1], s[j]);
      }
    }
  }

  method MiddleOfSorted(vals: seq<Rat>) returns (m: Rat)
    requires vals != []
    ensures IsLowerMedian(vals, m)
  {
    var sorted := new Rat[|vals|](i requires 0 <= i < |vals| => vals[i]);
    assert sorted[..] == vals;
    SortSlice(sorted);
    var s := sorted[..];
    SameLength(s, vals);
    SortedMiddleIsMedian(s);
    m := sorted[(|vals| - 1) / 2];
    MedianOfPermutation(s, vals, m);
  }

  method AggregateNumbers(samples: seq<Sample>, required: pos) returns (r: Result<Answer, AggregateError>)
    ensures IsMedianAnswer(samples, required, r)
  {
    var vals := [];
    for k := 0 to |samples|
      invariant vals == Numbers(samples[..k])
    {
      CollectStep(samples, k, NumberOf);
      if samples[k].err == "" && samples[k].num.Some? {
        vals := vals + [samples[k].num.value];
      }
    }
    assert samples[..|samples|] == samples;
    if |vals| < required {
      return Err(TooFewSources(|vals|, |samples|, required));
    }
    var m := MiddleOfSorted(vals);
    return Ok(Number(m));
  }

  // ---- the plurality branch

  ghost predicate Tallies(counts: map<string, nat>, votes: multiset<string>) {
    && (forall l :: l in counts <==> l in votes)
    && (forall l :: l in counts ==> counts[l] == votes[l])
  }

  lemma TalliesBump(counts: map<string, nat>, votes: multiset<string>, l: string)
    requires Tallies(counts, votes)
    ensures Tallies(counts[l := (if l in counts then counts[l] else 0) + 1], votes + multiset{l})
  {
  }

  /** One more sample is one more vote for its label, or none. */
  lemma LabelsStep(samples: seq<Sample>, k: nat)
    requires k < |samples|
    ensures var votes, more := Labels(samples[..k]), Labels(samples[..k + 1]); var x := samples[k];
      if x.err == "" && x.lbl != "" then multiset(more) == multiset(votes) + multiset{x.lbl} && |more| == |votes| + 1
      else more == votes
  {
    CollectStep(samples, k, LabelOf);
  }

  method CountLabels(samples: seq<Sample>) returns (counts: map<string, nat>, total: nat)
    ensures Tallies(counts, multiset(Labels(samples)))
    ensures total == |Labels(samples)|
  {
    counts, total := map[], 0;
    for k := 0 to |samples|
      invariant Tallies(counts, multiset(Labels(samples[..k])))
      invariant total == |Labels(samples[..k])|
    {
      ghost var votes := multiset(Labels(samples[..k]));
      LabelsStep(samples, k);
      var l := samples[k].lbl;
      if samples[k].err == "" && l != "" {
        TalliesBump(counts, votes, l);
        counts := counts[l := (if l in counts then counts[l] else 0) + 1];
        total := total + 1;
      }
    }
    assert samples[..|samples|] == samples;
  }

  /** The loop over the counts, whose iteration order is unspecified. */
  method MostVoted(counts: map<string, nat>) returns (best: string, tie: bool)
    requires forall l :: l in counts ==> 0 < counts[l]
    ensures counts != map[] ==> best in counts && forall l :: l in counts ==> counts[l] <= counts[best]
    ensures counts != map[] ==> (tie <==> exists l :: l in counts && l != best && counts[l] == counts[best])
  {
    var bestN := 0;
    best, tie := "", false;
    var unseen := counts.Keys;
    while unseen != {}
      invariant unseen <= counts.Keys
      invariant bestN == 0 ==> unseen == counts.Keys
      invariant 0 < bestN ==> best in counts && best !in unseen && counts[best] == bestN
      invariant forall l :: l in counts && l !in unseen ==> counts[l] <= bestN
      invariant tie <==> exists l :: l in counts && l !in unseen && l != best && counts[l] == bestN
      decreases unseen
    {
      var l :| l in unseen;
      var n := counts[l];
      unseen := unseen - {l};
      if n > bestN {
        best, bestN, tie := l, n, false;
      } else if n == bestN {
        tie := true;
      }
    }
  }

  method AggregateLabels(samples: seq<Sample>, required: pos) returns (r: Result<Answer, AggregateError>)
    ensures IsPluralityAnswer(samples, required, r)
  {
    var counts, total := CountLabels(samples);
    if total < required {
      return Err(TooFewSources(total, |samples|, required));
    }
    ghost var votes := multiset(Labels(samples));
    assert Labels(samples)[0] in votes;
    var best, tie := MostVoted(counts);
    if tie {
      ghost var other :| other in counts && other != best && counts[other] == counts[best];
      forall l
        ensures !StrictPlurality(votes, l)
      {
        assert votes[other] == votes[best] && (l in votes ==> l in counts);
      }
      return Err(NoPlurality);
    }
    assert StrictPlurality(votes, best);
    return Ok(Category(best));
  }

  // ---- the answers, read off the samples

  /** The sample answered a numeric feed; below m; at most m. */
  predicate Answered(x: Sample) {
    x.err == "" && x.num.Some?
  }

  function Below(m: Rat): Sample -> bool {
    (x: Sample) => Answered(x) && Less(x.num.value, m)
  }

  function AtMost(m: Rat): Sample -> bool {
    (x: Sample) => Answered(x) && LessEq(x.num.value, m)
  }

  /** The sample voted in a categorical feed; for label l. */
  predicate Voted(x: Sample) {
    x.err == "" && x.lbl != ""
  }

  function VotedFor(l: string): Sample -> bool {
    (x: Sample) => x.err == "" && x.lbl == l
  }

  /** One of the answers, with at most half of them (rounded down, without itself) below it and more at most it. */
  ghost predicate IsMiddle(samples: seq<Sample>, m: Rat) {
    && IsAnswer(samples, m)
    && |Where(samples, Below(m))| <= (|Where(samples, Answered)| - 1) / 2 < |Where(samples, AtMost(m))|
  }

  /** More votes than any other label. */
  ghost predicate IsAhead(samples: seq<Sample>, l: string) {
    l != "" && Where(samples, VotedFor(l)) != {}
    && forall o :: o != "" && o != l ==> |Where(samples, VotedFor(o))| < |Where(samples, VotedFor(l))|
  }

  /** What the samples decide, with at least need of them answering. */
  ghost predicate Decides(samples: seq<Sample>, numeric: bool, need: int, r: Result<Answer, AggregateError>) {
    var n := if numeric then |Where(samples, Answered)| else |Where(samples, Voted)|;
    if n < need then r == Err(TooFewSources(n, |samples|, need))
    else if numeric then r.Ok? && r.value.Number? && IsMiddle(samples, r.value.rat)
    else if r.Ok? then r.value.Category? && IsAhead(samples, r.value.name)
    else r == Err(NoPlurality) && forall l :: !IsAhead(samples, l)
  }

  lemma {:induction false} CountsConcat(a: seq<Rat>, b: seq<Rat>, m: Rat)
    ensures CountBelow(a + b, m) == CountBelow(a, m) + CountBelow(b, m)
    ensures CountAtMost(a + b, m) == CountAtMost(a, m) + CountAtMost(b, m)
  {
    if a == [] {
      assert a + b == b;
    } else {
      CountsConcat(a[1..], b, m);
      assert (a + b)[1..] == a[1..] + b;
    }
  }

  /** Some sample answered with m. */
  ghost predicate IsAnswer(samples: seq<Sample>, m: Rat) {
    exists i :: 0 <= i < |samples| && samples[i].err == "" && samples[i].num == Some(m)
  }

  lemma AnswerStep(init: seq<Sample>, x: Sample, m: Rat)
    ensures IsAnswer(init + [x], m) <==> IsAnswer(init, m) || (x.err == "" && x.num == Some(m))
  {
    var more := init + [x];
    if IsAnswer(init, m) {
      var i :| 0 <= i < |init| && init[i].err == "" && init[i].num == Some(m);
      assert more[i] == init[i];
    }
    assert more[|init|] == x;
  }

  /** The numbers collected are those of the answering samples. */
  lemma {:induction false} NumbersAreAnswers(samples: seq<Sample>, m: Rat)
    ensures |Numbers(samples)| == |Where(samples, Answered)|
    ensures CountBelow(Numbers(samples), m) == |Where(samples, Below(m))|
    ensures CountAtMost(Numbers(samples), m) == |Where(samples, AtMost(m))|
    ensures m in Numbers(samples) <==> IsAnswer(samples, m)
  {
    if samples == [] {
    } else {
      hide Where, IsAnswer, Collect, Less, LessEq;
      var n := |samples| - 1;
      var init, x := samples[..n], samples[n];
      assert samples == init + [x];
      NumbersAreAnswers(init, m);
      CollectAppend(init, x, NumberOf);
      CountsConcat(Numbers(init), NumberOf(x), m);
      WhereStep(init, x, Answered);
      WhereStep(init, x, Below(m));
      WhereStep(init, x, AtMost(m));
      AnswerStep(init, x, m);
    }
  }

  ghost function Votes(samples: seq<Sample>): multiset<string> {
    multiset(Labels(samples))
  }

  lemma VotesStep(init: seq<Sample>, x: Sample, l: string)
    ensures |Labels(init + [x])| == |Labels(init)| + if Voted(x) then 1 else 0
    ensures l != "" ==> Votes(init + [x])[l] == Votes(init)[l] + if VotedFor(l)(x) then 1 else 0
    ensures Votes(init + [x])[""] == Votes(init)[""]
  {
    hide Labels;
    var samples := init + [x];
    assert samples[..|init|] == init && samples[..|init| + 1] == samples;
    LabelsStep(samples, |init|);
  }

  /** The labels collected are the votes. */
  lemma {:induction false} LabelsAreVotes(samples: seq<Sample>, l: string)
    ensures |Labels(samples)| == |Where(samples, Voted)|
    ensures l != "" ==> Votes(samples)[l] == |Where(samples, VotedFor(l))|
    ensures Votes(samples)[""] == 0
  {
    if samples == [] {
    } else {
      hide Where, Labels, Votes, Voted, VotedFor;
      var n := |samples| - 1;
      var init, x := samples[..n], samples[n];
      assert samples == init + [x];
      LabelsAreVotes(init, l);
      VotesStep(init, x, l);
      WhereStep(init, x, Voted);
      WhereStep(init, x, VotedFor(l));
    }
  }

  lemma AheadIsPlurality(samples: seq<Sample>, l: string)
    ensures StrictPlurality(multiset(Labels(samples)), l) <==> IsAhead(samples, l)
  {
    var votes := multiset(Labels(samples));
    LabelsAreVotes(samples, l);
    forall o
      ensures o != "" ==> votes[o] == |Where(samples, VotedFor(o))|
    {
      LabelsAreVotes(samples, o);
    }
    if l != "" && Where(samples, VotedFor(l)) != {} {
      assert 0 < |Where(samples, VotedFor(l))|;
      if forall o :: o in votes && o != l ==> votes[o] < votes[l] {
        forall o | o != "" && o != l
          ensures |Where(samples, VotedFor(o))| < |Where(samples, VotedFor(l))|
        {
          assert o in votes || votes[o] == 0;
        }
      }
    }
  }

  /** What is computed from the collected answers is what the samples decide. */
  lemma AggregateDecides(samples: seq<Sample>, numeric: bool, minSources: int, r: Result<Answer, AggregateError>)
    requires IsAggregate(samples, numeric, minSources, r)
    ensures Decides(samples, numeric, if minSources < 1 then 1 else minSources, r)
  {
    if numeric {
      NumbersAreAnswers(samples, if r.Ok? then r.value.rat else Rat(0, 1));
    } else {
      LabelsAreVotes(samples, "");
      forall l
        ensures StrictPlurality(multiset(Labels(samples)), l) <==> IsAhead(samples, l)
      {
        AheadIsPlurality(samples, l);
      }
    }
  }

  method Aggregate(samples: seq<Sample>, numeric: bool, minSources: int)
    returns (r: Result<Answer, AggregateError>)
    ensures Decides(samples, numeric, if minSources < 1 then 1 else minSources, r)
    ensures IsAggregate(samples, numeric, minSources, r)
  {
    if numeric {
      r := AggregateNumbers(samples, Required(minSources));
    } else {
      r := AggregateLabels(samples, Required(minSources));
    }
    AggregateDecides(samples, numeric, minSources, r);
  }

  // ---- independence of the order of sources

  predicate SameAnswer(a: Result<Answer, AggregateError>, b: Result<Answer, AggregateError>) {
    if a.Ok? && b.Ok? && a.value.Number? && b.value.Number? then Same(a.value.rat, b.value.rat)
    else a == b
  }

  /**
   * Two runs over the same samples in any order of the sources, visiting
   * the label counts in any order, agree.
   */
  lemma AggregateIgnoresOrder(s: seq<Sample>, t: seq<Sample>, numeric: bool, minSources: int,
                              a: Result<Answer, AggregateError>, b: Result<Answer, AggregateError>)
    requires multiset(s) == multiset(t)
    requires IsAggregate(s, numeric, minSources, a) && IsAggregate(t, numeric, minSources, b)
    ensures SameAnswer(a, b)
  {
    hide IsMedianAnswer, IsPluralityAnswer, SameAnswer;
    if numeric {
      NumbersIgnoreOrder(s, t, Required(minSources), a, b);
    } else {
      LabelsIgnoreOrder(s, t, Required(minSources), a, b);
    }
  }

  lemma NumbersIgnoreOrder(s: seq<Sample>, t: seq<Sample>, required: pos, a: Result<Answer, AggregateError>,
                           b: Result<Answer, AggregateError>)
    requires multiset(s) == multiset(t) && IsMedianAnswer(s, required, a) && IsMedianAnswer(t, required, b)
    ensures SameAnswer(a, b)
  {
    hide Collect, IsLowerMedian;
    CollectPermutation(s, t, NumberOf);
    SameLength(s, t);
    SameLength(Numbers(s), Numbers(t));
    if |Numbers(s)| >= required {
      MedianOfPermutation(Numbers(s), Numbers(t), a.value.rat);
      MedianUnique(Numbers(t), a.value.rat, b.value.rat);
    }
  }

  lemma LabelsIgnoreOrder(s: seq<Sample>, t: seq<Sample>, required: pos, a: Result<Answer, AggregateError>,
                          b: Result<Answer, AggregateError>)
    requires multiset(s) == multiset(t) && IsPluralityAnswer(s, required, a) && IsPluralityAnswer(t, required, b)
    ensures SameAnswer(a, b)
  {
    hide Collect;
    CollectPermutation(s, t, LabelOf);
    SameLength(s, t);
    SameLength(Labels(s), Labels(t));
  }

  /**
   * Of n answering sources, at most (n-1)/2 of them arbitrary and the rest in
   * [lo, hi]: the aggregate is in [lo, hi].
   */
  lemma AggregateFaultTolerance(samples: seq<Sample>, minSources: int, r: Result<Answer, AggregateError>,
                                lo: Rat, hi: Rat)
    requires IsAggregate(samples, true, minSources, r) && r.Ok?
    requires CountOutside(Numbers(samples), lo, hi) <= (|Numbers(samples)| - 1) / 2
    ensures LessEq(lo, r.value.rat) && LessEq(r.value.rat, hi)
  {
    FaultTolerance(Numbers(samples), r.value.rat, lo, hi);
  }

  // ---- rounding

  /** q is the integer nearest to num/den, the one away from zero on a tie. */
  predicate NearestAway(num: int, den: pos, q: int) {
    && 2 * Abs(q * den - num) <= den
    && (2 * Abs(q * den - num) == den ==> Abs(num) < Abs(q) * den)
  }

  function RoundHalfAway(num: int, den: pos): int {
    var q := (2 * Abs(num) + den) / (2 * den);
    if num < 0 then -q else q
  }

  lemma RoundIsNearest(num: int, den: pos)
    ensures NearestAway(num, den, RoundHalfAway(num, den))
  {
    var a := 2 * Abs(num) + den;
    var q := a / (2 * den);
    FloorTwice(a, den, q);
    assert (-q) * den == -(q * den);
  }

  lemma FloorTwice(a: nat, den: pos, q: nat)
    requires q == a / (2 * den)
    ensures 2 * (q * den) <= a < 2 * (q * den) + 2 * den
  {
    assert a == q * (2 * den) + a % (2 * den);
    assert q * (2 * den) == 2 * (q * den);
  }

  /** Rounding up from a tie happens above zero only. */
  lemma TieAbove(num: int, den: pos, p: int)
    requires 2 * num == (2 * p - 1) * den && NearestAway(num, den, p)
    ensures 0 < p
  {
    var d := p * den;
    assert (2 * p - 1) * den == 2 * d - den;
    assert Abs(d - num) * 2 == den;
    assert p <= 0 ==> Abs(p) * den == -d;
    if p <= 0 {
      MulLe(p, 0, den);
    }
  }

  /** Rounding down from a tie happens below zero only. */
  lemma TieBelow(num: int, den: pos, q: int)
    requires 2 * num == (2 * q + 1) * den && NearestAway(num, den, q)
    ensures q < 0
  {
    var d := q * den;
    assert (2 * q + 1) * den == 2 * d + den;
    assert Abs(d - num) * 2 == den;
    assert 0 <= q ==> Abs(q) * den == d;
    if 0 <= q {
      MulLe(0, q, den);
    }
  }

  /** If h/2 <= a <= b <= g/2 with g <= h, all four are the same number. */
  lemma Sandwich(a: Rat, b: Rat, g: int, h: int)
    requires LessEq(a, b) && g <= h
    requires h * a.den <= 2 * a.num && 2 * b.num <= g * b.den
    ensures g == h && 2 * a.num == h * a.den && 2 * b.num == g * b.den
  {
    var dd := a.den * b.den;
    MulLe(h * a.den, 2 * a.num, b.den);
    MulLe(2 * b.num, g * b.den, a.den);
    assert (h * a.den) * b.den == h * dd;
    assert (g * b.den) * a.den == g * dd;
    assert (2 * a.num) * b.den == 2 * (a.num * b.den);
    assert (2 * b.num) * a.den == 2 * (b.num * a.den);
    MulCancelLe(h, g, dd);
    MulCancelLe(2 * a.num, h * a.den, b.den);
    MulCancelLe(h * b.den, 2 * b.num, a.den);
  }

  /** Nearest-away rounding is monotone, so it picks exactly one integer. */
  lemma NearestMonotone(a: Rat, b: Rat, p: int, q: int)
    requires LessEq(a, b)
    requires NearestAway(a.num, a.den, p) && NearestAway(b.num, b.den, q)
    ensures p <= q
  {
    if q < p {
      assert (2 * q + 1) * b.den == 2 * (q * b.den) + b.den;
      assert (2 * p - 1) * a.den == 2 * (p * a.den) - a.den;
      Sandwich(a, b, 2 * q + 1, 2 * p - 1);
      TieAbove(a.num, a.den, p);
      TieBelow(b.num, b.den, q);
    }
  }

  lemma RoundUnique(num: int, den: pos, q: int)
    requires NearestAway(num, den, q)
    ensures q == RoundHalfAway(num, den)
  {
    RoundIsNearest(num, den);
    var r := Rat(num, den);
    NearestMonotone(r, r, q, RoundHalfAway(num, den));
    NearestMonotone(r, r, RoundHalfAway(num, den), q);
  }

  lemma OnlyNearest(num: int, den: pos)
    ensures forall q :: NearestAway(num, den, q) <==> q == RoundHalfAway(num, den)
  {
    RoundIsNearest(num, den);
    forall q | NearestAway(num, den, q)
      ensures q == RoundHalfAway(num, den)
    {
      RoundUnique(num, den, q);
    }
  }

  // ---- scaling to the feed's integer

  datatype ScaleError = NoValue | DoesNotFit

  /** The integer representation before the range check. */
  function Scaled(v: Rat, decimals: int): int {
    RoundHalfAway(v.num * Decimal.Pow10(decimals), v.den)
  }

  function Fitted(q: int): Result<int, ScaleError> {
    if IsInt64(q) then Ok(q) else Err(DoesNotFit)
  }

  /** The nearest integer to the scaled value (a tie away from zero), unless that integer leaves int64. */
  method ScaleToInt(v: Option<Rat>, decimals: int) returns (r: Result<int, ScaleError>)
    ensures v.None? <==> r == Err(NoValue)
    ensures r.Ok? ==> IsInt64(r.value) && NearestAway(v.value.num * Decimal.Pow10(decimals), v.value.den, r.value)
    ensures r == Err(DoesNotFit) ==>
              forall q :: NearestAway(v.value.num * Decimal.Pow10(decimals), v.value.den, q) ==> !IsInt64(q)
    ensures v.Some? ==> r == Fitted(Scaled(v.value, decimals))
  {
    if v.None? {
      return Err(NoValue);
    }
    var num, den := v.value.num * Decimal.Pow10(decimals), v.value.den;
    OnlyNearest(num, den);
    var twice := num * 2;
    var q, rem := Abs(twice) / (den * 2), Abs(twice) % (den * 2);
    assert (2 * Abs(num) + den) / (2 * den) == if rem >= den then q + 1 else q by {
      QuotientOfSum(Abs(twice), den);
    }
    if rem >= den {
      q := q + 1;
    }
    if num < 0 {
      q := -q;
    }
    if !IsInt64(q) || q > MAX_INT64 {
      return Err(DoesNotFit);
    }
    return Ok(q);
  }

  lemma QuotientOfSum(a: nat, den: pos)
    ensures (a + den) / (2 * den) == a / (2 * den) + (if a % (2 * den) >= den then 1 else 0)
  {
    var b := 2 * den;
    var q, r := a / b, a % b;
    var c := if r >= den then 1 else 0;
    assert a == q * b + r;
    var r' := r + den - c * b;
    assert 0 <= r' < b;
    assert a + den == (q + c) * b + r' by {
      assert (q + c) * b == q * b + c * b;
    }
    QuotientUnique(a + den, b, q + c, r');
  }

  lemma QuotientUnique(a: int, b: pos, q: int, r: int)
    requires a == q * b + r && 0 <= r < b
    ensures a / b == q
  {
    var q', r' := a / b, a % b;
    assert (q + 1) * b == q * b + b && (q' + 1) * b == q' * b + b;
    MulCancelLt(q', q + 1, b);
    MulCancelLt(q, q' + 1, b);
  }

  lemma ScaledMonotone(a: Rat, b: Rat, decimals: int)
    requires LessEq(a, b)
    ensures Scaled(a, decimals) <= Scaled(b, decimals)
  {
    var p := Decimal.Pow10(decimals);
    var x, y := Rat(a.num * p, a.den), Rat(b.num * p, b.den);
    MulLe(a.num * b.den, b.num * a.den, p);
    assert x.num * y.den == (a.num * b.den) * p;
    assert y.num * x.den == (b.num * a.den) * p;
    RoundIsNearest(x.num, x.den);
    RoundIsNearest(y.num, y.den);
    NearestMonotone(x, y, Scaled(a, decimals), Scaled(b, decimals));
  }

  // ---- rounding commutes with the median

  function WholeNumbers(s: seq<Rat>, decimals: int): (t: seq<Rat>)
    ensures |t| == |s|
    ensures forall i :: 0 <= i < |s| ==> t[i] == Rat(Scaled(s[i], decimals), 1)
  {
    if s == [] then [] else [Rat(Scaled(s[0], decimals), 1)] + WholeNumbers(s[1..], decimals)
  }

  /** The scaled lower median is the lower median of the scaled samples. */
  lemma RoundingCommutesWithMedian(s: seq<Rat>, m: Rat, decimals: int)
    requires IsLowerMedian(s, m)
    requires forall x :: x in s ==> Fitted(Scaled(x, decimals)).Ok?
    ensures Fitted(Scaled(m, decimals)).Ok?
    ensures NearestAway(m.num * Decimal.Pow10(decimals), m.den, Fitted(Scaled(m, decimals)).value)
    ensures forall i :: 0 <= i < |s| ==>
              NearestAway(s[i].num * Decimal.Pow10(decimals), s[i].den, WholeNumbers(s, decimals)[i].num)
    ensures IsLowerMedian(WholeNumbers(s, decimals), Rat(Fitted(Scaled(m, decimals)).value, 1))
  {
    var t, n := WholeNumbers(s, decimals), Rat(Scaled(m, decimals), 1);
    forall i | 0 <= i < |s|
      ensures LessEq(s[i], m) ==> LessEq(t[i], n)
      ensures LessEq(m, s[i]) ==> LessEq(n, t[i])
    {
      if LessEq(s[i], m) {
        ScaledMonotone(s[i], m, decimals);
      }
      if LessEq(m, s[i]) {
        ScaledMonotone(m, s[i], decimals);
      }
    }
    CountsOfImage(s, m, t, n);
    OnlyNearest(m.num * Decimal.Pow10(decimals), m.den);
    forall i | 0 <= i < |s|
      ensures NearestAway(s[i].num * Decimal.Pow10(decimals), s[i].den, t[i].num)
    {
      OnlyNearest(s[i].num * Decimal.Pow10(decimals), s[i].den);
    }
    var i :| 0 <= i < |s| && s[i] == m;
    assert t[i] == n;
  }

  // ---- the sanity band

  predicate WithinBps(v: int, ref: int, bps: int) {
    if ref == 0 then v == 0 else Abs(v - ref) * 10_000 <= Abs(ref) * bps
  }
}
