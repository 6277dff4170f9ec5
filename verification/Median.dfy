// Exact rationals, their order, and the lower median as an order statistic.
// Nothing here mentions sorting: a lower median is characterised by how many
// values lie below it and how many lie at or below it.
module Median {
  import opened Basics

  /** A rational number; two values are the same number when Same holds. */
  datatype Rat = Rat(num: int, den: pos)

  predicate LessEq(a: Rat, b: Rat) {
    a.num * b.den <= b.num * a.den
  }

  predicate Less(a: Rat, b: Rat) {
    a.num * b.den < b.num * a.den
  }

  predicate Same(a: Rat, b: Rat) {
    a.num * b.den == b.num * a.den
  }

  lemma LessTotal(a: Rat, b: Rat)
    ensures if Less(a, b) then LessEq(a, b) else LessEq(b, a)
  {
  }

  lemma LessEqTransitive(a: Rat, b: Rat, c: Rat)
    requires LessEq(a, b) && LessEq(b, c)
    ensures LessEq(a, c)
  {
    MulLe(a.num * b.den, b.num * a.den, c.den);
    MulLe(b.num * c.den, c.num * b.den, a.den);
    assert (a.num * c.den) * b.den == (a.num * b.den) * c.den;
    assert (b.num * a.den) * c.den == (b.num * c.den) * a.den;
    assert (c.num * b.den) * a.den == (c.num * a.den) * b.den;
    MulCancelLe(a.num * c.den, c.num * a.den, b.den);
  }

  // ---- counting

  function CountBelow(s: seq<Rat>, m: Rat): nat {
    if s == [] then 0 else (if Less(s[0], m) then 1 else 0) + CountBelow(s[1..], m)
  }

  function CountAtMost(s: seq<Rat>, m: Rat): nat {
    if s == [] then 0 else (if LessEq(s[0], m) then 1 else 0) + CountAtMost(s[1..], m)
  }

  function CountOutside(s: seq<Rat>, lo: Rat, hi: Rat): nat {
    if s == [] then 0
    else (if LessEq(lo, s[0]) && LessEq(s[0], hi) then 0 else 1) + CountOutside(s[1..], lo, hi)
  }

  lemma {:induction false} CountSplit(s: seq<Rat>, i: nat, m: Rat)
    requires i < |s|
    ensures CountBelow(s, m) == (if Less(s[i], m) then 1 else 0) + CountBelow(Without(s, i), m)
    ensures CountAtMost(s, m) == (if LessEq(s[i], m) then 1 else 0) + CountAtMost(Without(s, i), m)
  {
    if i == 0 {
      assert Without(s, 0) == s[1..];
    } else {
      CountSplit(s[1..], i - 1, m);
      assert Without(s, i)[0] == s[0];
      assert Without(s, i)[1..] == Without(s[1..], i - 1);
    }
  }

  /** Both counts depend on the multiset of values only. */
  lemma {:induction false} CountsOfPermutation(s: seq<Rat>, t: seq<Rat>, m: Rat)
    requires multiset(s) == multiset(t)
    ensures CountBelow(s, m) == CountBelow(t, m) && CountAtMost(s, m) == CountAtMost(t, m)
    decreases |s|
  {
    SameLength(s, t);
    if s != [] {
      var i := MatchInPermutation(s, t);
      CountsOfPermutation(s[1..], Without(t, i), m);
      CountSplit(t, i, m);
    }
  }

  // ---- the lower median

  /** m is the element at index (n-1)/2 of the values in ascending order. */
  predicate IsLowerMedian(s: seq<Rat>, m: Rat) {
    && m in s
    && CountBelow(s, m) <= (|s| - 1) / 2 < CountAtMost(s, m)
  }

  predicate Sorted(s: seq<Rat>) {
    forall i, j :: 0 <= i < j < |s| ==> LessEq(s[i], s[j])
  }

  lemma {:induction false} CountBelowBound(s: seq<Rat>, k: nat, m: Rat)
    requires k <= |s|
    requires forall i :: k <= i < |s| ==> !Less(s[i], m)
    ensures CountBelow(s, m) <= k
  {
    if s != [] {
      CountBelowBound(s[1..], if k == 0 then 0 else k - 1, m);
    }
  }

  lemma {:induction false} CountAtMostBound(s: seq<Rat>, k: nat, m: Rat)
    requires k <= |s|
    requires forall i :: 0 <= i < k ==> LessEq(s[i], m)
    ensures k <= CountAtMost(s, m)
  {
    if k > 0 {
      CountAtMostBound(s[1..], k - 1, m);
    }
  }

  lemma SortedMiddleIsMedian(s: seq<Rat>)
    requires Sorted(s) && s != []
    ensures IsLowerMedian(s, s[(|s| - 1) / 2])
  {
    var k := (|s| - 1) / 2;
    CountBelowBound(s, k, s[k]);
    CountAtMostBound(s, k + 1, s[k]);
  }

  lemma MedianOfPermutation(s: seq<Rat>, t: seq<Rat>, m: Rat)
    requires multiset(s) == multiset(t) && IsLowerMedian(s, m)
    ensures IsLowerMedian(t, m)
  {
    SameLength(s, t);
    assert m in multiset(t);
    CountsOfPermutation(s, t, m);
  }

  lemma {:induction false} CountsBetween(s: seq<Rat>, a: Rat, b: Rat)
    requires Less(a, b)
    ensures CountAtMost(s, a) <= CountBelow(s, b)
  {
    if s != [] {
      CountsBetween(s[1..], a, b);
      if LessEq(s[0], a) && !Less(s[0], b) {
        LessEqTransitive(b, s[0], a);
        assert false;
      }
    }
  }

  lemma MedianUnique(s: seq<Rat>, a: Rat, b: Rat)
    requires IsLowerMedian(s, a) && IsLowerMedian(s, b)
    ensures Same(a, b)
  {
    if Less(a, b) {
      CountsBetween(s, a, b);
    } else if Less(b, a) {
      CountsBetween(s, b, a);
    }
  }

  /** An order-preserving image keeps the median: the counts can only close in. */
  lemma {:induction false} CountsOfImage(s: seq<Rat>, m: Rat, t: seq<Rat>, n: Rat)
    requires |s| == |t|
    requires forall i :: 0 <= i < |s| && LessEq(s[i], m) ==> LessEq(t[i], n)
    requires forall i :: 0 <= i < |s| && LessEq(m, s[i]) ==> LessEq(n, t[i])
    ensures CountBelow(t, n) <= CountBelow(s, m) && CountAtMost(s, m) <= CountAtMost(t, n)
  {
    if s != [] {
      CountsOfImage(s[1..], m, t[1..], n);
    }
  }

  // ---- fault tolerance

  lemma {:induction false} CountsOutside(s: seq<Rat>, m: Rat, lo: Rat, hi: Rat)
    ensures Less(m, lo) ==> CountAtMost(s, m) <= CountOutside(s, lo, hi)
    ensures Less(hi, m) ==> |s| - CountBelow(s, m) <= CountOutside(s, lo, hi)
  {
    if s != [] {
      CountsOutside(s[1..], m, lo, hi);
      if LessEq(lo, s[0]) && LessEq(s[0], m) {
        LessEqTransitive(lo, s[0], m);
      }
      if LessEq(m, s[0]) && LessEq(s[0], hi) {
        LessEqTransitive(m, s[0], hi);
      }
    }
  }

  /**
   * If at most (n-1)/2 of n values are arbitrary and the others lie in
   * [lo, hi], the lower median lies in [lo, hi].
   */
  lemma FaultTolerance(s: seq<Rat>, m: Rat, lo: Rat, hi: Rat)
    requires IsLowerMedian(s, m)
    requires CountOutside(s, lo, hi) <= (|s| - 1) / 2
    ensures LessEq(lo, m) && LessEq(m, hi)
  {
    CountsOutside(s, m, lo, hi);
  }
}
