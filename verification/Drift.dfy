// How far the values of an agent can drift over a run when each submission
// only has to pass the sanity check against one of its own before.
module Drift {
  import opened Basics
  import opened AgentState
  import opened Agent
  import opened AgentRuns
  import opened AgentOrder
  import Value

  // ---- what the check leaves of a submission

  /** The log holds a submission of the feed under this start. */
  predicate HasAny(log: seq<Submission>, id: nat, s: int) {
    exists i :: 0 <= i < |log| && OfStart(log[i], id, s)
  }

  /** The value is in the band of some submission of the feed under this start. */
  predicate InSomeBand(log: seq<Submission>, id: nat, s: int, bps: pos, v: int) {
    exists j :: 0 <= j < |log| && OfStart(log[j], id, s) && Value.WithinBps(v, log[j].value, bps)
  }

  /** The step is a tick whose submission for the feed, under this start, is accepted. */
  predicate Sends(w: World, op: Op, net: string, id: nat, s: int) {
    && op.DoTick? && op.id == id && w.net == net
    && WillSubmit(LocalOf(w, id), op.c, id, op.e) && Admits(w, id, op.e.feed.value)
    && op.e.feed.value.sched.startAt == s
  }

  /** No public value that the check would take: none at all, or one older than the agent's own. */
  predicate NotLed(st: FeedState, f: FeedView) {
    f.value.Some? ==> st.hasValue && f.lastRound < st.valueRound
  }

  predicate Banded(c: Config, bps: pos) {
    c.numeric && c.sanityBps == bps && !c.force
  }

  /**
   * What is asked of the feed and the views: numeric, with this band and no
   * override, and after the first submission of a schedule no submission sees
   * a newer public value.
   */
  predicate Quiet(w: World, op: Op, net: string, id: nat, s: int, bps: pos) {
    Sends(w, op, net, id, s) ==>
      && Banded(op.c, bps)
      && (HasAny(LogOf(w, net), id, s) ==> NotLed(Rescheduled(Lookup(w.feeds, id), s), op.e.feed.value))
  }

  ghost predicate AllQuiet(ws: seq<World>, ops: seq<Op>, net: string, id: nat, s: int, bps: pos)
    requires |ws| == |ops| + 1
  {
    forall i :: 0 <= i < |ops| ==> Quiet(ws[i], ops[i], net, id, s, bps)
  }

  /** And of the memory: a submission after the first finds a value of the schedule remembered. */
  predicate Remembering(w: World, op: Op, net: string, id: nat, s: int) {
    Sends(w, op, net, id, s) && HasAny(LogOf(w, net), id, s) ==> Rescheduled(Lookup(w.feeds, id), s).hasValue
  }

  ghost predicate AllRemembering(ws: seq<World>, ops: seq<Op>, net: string, id: nat, s: int)
    requires |ws| == |ops| + 1
  {
    forall i :: 0 <= i < |ops| ==> Remembering(ws[i], ops[i], net, id, s)
  }

  /** Submission k is in the band of an earlier one of the same feed and schedule. */
  predicate Follows(log: seq<Submission>, id: nat, s: int, bps: pos, k: nat)
    requires k < |log|
  {
    exists j :: 0 <= j < k && OfStart(log[j], id, s) && Value.WithinBps(log[k].value, log[j].value, bps)
  }

  /** Each submission of the feed under this start but the first follows an earlier one. */
  predicate Chained(log: seq<Submission>, id: nat, s: int, bps: pos) {
    forall k :: 0 <= k < |log| && OfStart(log[k], id, s) && HasAny(log[..k], id, s) ==> Follows(log, id, s, bps, k)
  }

  /**
   * Over every run with quiet views in which no submission finds the value
   * forgotten, each submission follows some earlier one (not always the last:
   * one that landed with an error, or before an unsaved restart, may be
   * forgotten while an earlier value is remembered).
   */
  lemma {:induction false} RunIsChained(ws: seq<World>, ops: seq<Op>, net: string, id: nat, s: int, bps: pos, n: nat)
    requires Run(ws, ops) && n < |ws|
    requires AllQuiet(ws, ops, net, id, s, bps) && AllRemembering(ws, ops, net, id, s)
    ensures Chained(LogOf(ws[n], net), id, s, bps)
  {
    hide WillSubmit, AfterTick, Admits, NotLed, Banded;
    if 0 < n {
      RunIsChained(ws, ops, net, id, s, bps, n - 1);
      var w, op := ws[n - 1], ops[n - 1];
      var before, after := LogOf(w, net), LogOf(ws[n], net);
      LogStep(w, ws[n], op, net);
      assert Quiet(w, op, net, id, s, bps) && Remembering(w, op, net, id, s);
      if after != before {
        var x := after[|before|];
        assert after == before + [x];
        if OfStart(x, id, s) && HasAny(before, id, s) {
          RunIsGood(ws, ops, n - 1);
          SubmissionFollows(w, op.c, op.e, id, s, bps);
        }
        ChainedLonger(before, x, id, s, bps);
      }
    }
  }

  /** A submission checked against the agent's own value is in the band of the submission that value came from. */
  lemma SubmissionFollows(w: World, c: Config, e: Env, id: nat, s: int, bps: pos)
    requires GoodWorld(w) && WillSubmit(LocalOf(w, id), c, id, e) && e.feed.value.sched.startAt == s
    requires Banded(c, bps)
    requires var st := Rescheduled(Lookup(w.feeds, id), s); NotLed(st, e.feed.value) && st.hasValue
    ensures InSomeBand(LogOf(w, w.net), id, s, bps, e.fetched.value)
  {
    var f, log := e.feed.value, LogOf(w, w.net);
    var st := Rescheduled(Lookup(w.feeds, id), s);
    assert id in w.feeds && Backed(w.feeds[id], id, log);
    assert SanityRef(st, f) == Some(st.lastValue);
    assert Sane(c, st, f, e.fetched.value);
    var j :| 0 <= j < |log| && log[j].feed == id && log[j].startAt == s && log[j].round == st.valueRound
             && log[j].value == st.lastValue;
    assert OfStart(log[j], id, s);
  }

  /** The band around a reference above zero, below zero, and at zero. */
  lemma BandExactly(v: int, ref: int, bps: nat)
    ensures 0 < ref ==> (Value.WithinBps(v, ref, bps) <==> ref * (10_000 - bps) <= v * 10_000 <= ref * (10_000 + bps))
    ensures ref < 0 ==> (Value.WithinBps(v, ref, bps) <==> ref * (10_000 + bps) <= v * 10_000 <= ref * (10_000 - bps))
    ensures ref == 0 ==> (Value.WithinBps(v, ref, bps) <==> v == 0)
  {
    assert ref * (10_000 + bps) == ref * 10_000 + ref * bps;
    assert ref * (10_000 - bps) == ref * 10_000 - ref * bps;
    assert Abs(ref) * bps == if ref < 0 then -(ref * bps) else ref * bps;
  }

  /** At most bps of the reference, up or down, and never across zero. */
  lemma BandStep(v: int, ref: int, bps: nat)
    requires Value.WithinBps(v, ref, bps)
    ensures Abs(v) * 10_000 <= Abs(ref) * (10_000 + bps)
    ensures bps < 10_000 ==> Abs(ref) * (10_000 - bps) <= Abs(v) * 10_000
    ensures bps < 10_000 ==> (0 < ref ==> 0 < v) && (ref < 0 ==> v < 0) && (ref == 0 ==> v == 0)
  {
    assert Abs(ref) * (10_000 + bps) == Abs(ref) * 10_000 + Abs(ref) * bps;
    assert Abs(ref) * (10_000 - bps) == Abs(ref) * 10_000 - Abs(ref) * bps;
    if bps < 10_000 && ref != 0 {
      MulLt(bps, 10_000, Abs(ref));
    }
  }

  // ---- why the memory matters

  /** A value beyond every band of the log. */
  function Beyond(log: seq<Submission>, bps: pos): int {
    if log == [] then 1
    else Beyond(log[..|log| - 1], bps) + Abs(log[|log| - 1].value) * (10_000 + bps)
  }

  lemma {:induction false} BeyondEveryBand(log: seq<Submission>, bps: pos, j: nat)
    requires j < |log|
    ensures Abs(log[j].value) * (10_000 + bps) < Beyond(log, bps)
    ensures !Value.WithinBps(Beyond(log, bps), log[j].value, bps)
  {
    BeyondIsPositive(log, bps);
    BeyondCovers(log, bps, j);
    if Value.WithinBps(Beyond(log, bps), log[j].value, bps) {
      BandStep(Beyond(log, bps), log[j].value, bps);
      assert false;
    }
  }

  lemma {:induction false} BeyondIsPositive(log: seq<Submission>, bps: pos)
    ensures 0 < Beyond(log, bps)
  {
    if log != [] {
      BeyondIsPositive(log[..|log| - 1], bps);
      MulLe(0, Abs(log[|log| - 1].value), 10_000 + bps);
    }
  }

  lemma {:induction false} BeyondCovers(log: seq<Submission>, bps: pos, j: nat)
    requires j < |log|
    ensures Abs(log[j].value) * (10_000 + bps) < Beyond(log, bps)
  {
    var last := |log| - 1;
    if j < last {
      BeyondCovers(log[..last], bps, j);
      MulLe(0, Abs(log[last].value), 10_000 + bps);
    } else {
      BeyondIsPositive(log[..last], bps);
    }
  }

  /**
   * The exact condition: when no public value leads, what an accepted tick can
   * send after the first submission is held to the bands of the earlier ones
   * if and only if the agent remembers a value of the schedule; without one
   * it sends any value it fetches.
   */
  lemma MemoryExactly(w: World, c: Config, e: Env, id: nat, s: int, bps: pos)
    requires GoodWorld(w) && WillSubmit(LocalOf(w, id), c, id, e) && e.feed.value.sched.startAt == s
    requires Banded(c, bps) && NotLed(Rescheduled(Lookup(w.feeds, id), s), e.feed.value)
    ensures (forall v :: WillSubmit(LocalOf(w, id), c, id, e.(fetched := Some(v))) ==>
                           InSomeBand(LogOf(w, w.net), id, s, bps, v))
        <==> Rescheduled(Lookup(w.feeds, id), s).hasValue
    ensures !Rescheduled(Lookup(w.feeds, id), s).hasValue ==>
              forall v :: WillSubmit(LocalOf(w, id), c, id, e.(fetched := Some(v)))
  {
    var st, log := Rescheduled(Lookup(w.feeds, id), s), LogOf(w, w.net);
    if st.hasValue {
      forall v | WillSubmit(LocalOf(w, id), c, id, e.(fetched := Some(v)))
        ensures InSomeBand(log, id, s, bps, v)
      {
        SubmissionFollows(w, c, e.(fetched := Some(v)), id, s, bps);
      }
    } else {
      assert SanityRef(st, e.feed.value) == None;
      forall v
        ensures WillSubmit(LocalOf(w, id), c, id, e.(fetched := Some(v)))
      {
      }
      var v := Beyond(log, bps);
      assert WillSubmit(LocalOf(w, id), c, id, e.(fetched := Some(v)));
      forall j | 0 <= j < |log|
        ensures !Value.WithinBps(v, log[j].value, bps)
      {
        BeyondEveryBand(log, bps, j);
      }
    }
  }

  // ---- where the memory is kept

  predicate Knows(fs: FeedState, s: int) {
    fs.hasValue && fs.startAt == s
  }

  /**
   * A tick of the feed saves, its transaction does not land with an error, and
   * its view is under this start; a restart is on the same chain.
   */
  predicate Careful(op: Op, net: string, id: nat, s: int) {
    match op
    case DoTick(i, _, e) =>
      i == id ==> e.saves && !e.fate.CommittedWithError? && (e.feed.Some? ==> e.feed.value.sched.startAt == s)
    case Restart(chain) => chain == net
    case Seated(_, _, _, _, _) => true
  }

  ghost predicate AllCareful(ws: seq<World>, ops: seq<Op>, net: string, id: nat, s: int)
    requires |ws| == |ops| + 1
  {
    ws[0].net == net && forall i :: 0 <= i < |ops| ==> Careful(ops[i], net, id, s)
  }

  /** Both the process and its file know a value of the feed under this start. */
  predicate BothKnow(feeds: Feeds, file: Option<File>, net: string, id: nat, s: int) {
    && Knows(Lookup(feeds, id), s)
    && file.Some? && file.value.net == net && Knows(Lookup(file.value.feeds, id), s)
  }

  /** They do once the log holds a submission. */
  predicate KnowsOwn(l: Local, id: nat, s: int) {
    HasAny(l.log, id, s) ==> BothKnow(l.feeds, l.file, l.net, id, s)
  }

  lemma SubmittingKnows(l: Local, c: Config, id: nat, f: FeedView, cur: nat, e: Env)
    requires e.saves && !e.fate.CommittedWithError? && KnowsOwn(l, id, f.sched.startAt)
    requires Lookup(l.feeds, id).startAt == f.sched.startAt
    ensures var l' := Submitting(l, c, id, f, cur, e);
      KnowsOwn(l', id, f.sched.startAt) && Lookup(l'.feeds, id).startAt == f.sched.startAt && l'.net == l.net
  {
  }

  lemma ClaimingKnows(l: Local, c: Config, id: nat, st: FeedState, now: int, e: Env, s: int)
    requires KnowsOwn(l, id, s)
    ensures var l' := Claiming(l, c, id, st, now, e); KnowsOwn(l', id, s) && l'.net == l.net
  {
  }

  lemma OwnTickKnows(l: Local, c: Config, id: nat, e: Env, s: int)
    requires e.saves && !e.fate.CommittedWithError? && KnowsOwn(l, id, s)
    requires e.feed.Some? ==> e.feed.value.sched.startAt == s
    ensures KnowsOwn(AfterTick(l, c, id, e), id, s) && AfterTick(l, c, id, e).net == l.net
  {
    if Reaches(l, e) {
      var f := e.feed.value;
      var cur := f.sched.Current(f.now).value;
      var u := Updated(l, id, e);
      assert KnowsOwn(u, id, s) && Lookup(u.feeds, id).startAt == s;
      if u.obliged.value <= cur {
        SubmittingKnows(u, c, id, f, cur, e);
        ClaimingKnows(Submitting(u, c, id, f, cur, e), c, id, Lookup(u.feeds, id), f.now, e, s);
      }
    }
  }

  lemma OtherTickKnows(l: Local, c: Config, id: nat, e: Env, other: nat, s: int)
    requires other != id && KnowsOwn(l, other, s)
    ensures KnowsOwn(AfterTick(l, c, id, e), other, s) && AfterTick(l, c, id, e).net == l.net
  {
    var l' := AfterTick(l, c, id, e);
    TickLeavesOthers(l, c, id, e, other);
    TickSubmitsExactly(l, c, id, e);
    if HasAny(l'.log, other, s) {
      var i :| 0 <= i < |l'.log| && OfStart(l'.log[i], other, s);
      assert OfStart(l.log[i], other, s);
    }
  }

  /** The same of a world on the given chain. */
  predicate WorldKnows(w: World, net: string, id: nat, s: int) {
    w.net == net && KnowsOwn(LocalOf(w, id), id, s)
  }

  lemma CarefulStep(w: World, op: Op, net: string, id: nat, s: int)
    requires GoodWorld(w) && WorldKnows(w, net, id, s) && Careful(op, net, id, s)
    ensures WorldKnows(Next(w, op), net, id, s)
  {
    hide AfterTick;
    if op.DoTick? {
      var l, e := LocalOf(w, op.id), Met(w, op.id, op.e);
      if op.id == id {
        OwnTickKnows(l, op.c, id, e, s);
      } else {
        OtherTickKnows(l, op.c, op.id, e, id, s);
      }
    }
  }

  lemma {:induction false} CarefulRunKnows(ws: seq<World>, ops: seq<Op>, net: string, id: nat, s: int, n: nat)
    requires Run(ws, ops) && AllCareful(ws, ops, net, id, s) && n < |ws|
    ensures WorldKnows(ws[n], net, id, s)
  {
    if 0 < n {
      CarefulRunKnows(ws, ops, net, id, s, n - 1);
      RunIsGood(ws, ops, n - 1);
      assert Careful(ops[n - 1], net, id, s);
      CarefulStep(ws[n - 1], ops[n - 1], net, id, s);
    }
  }

  /** Over every run on one chain and schedule whose saves succeed and whose submissions never land with an error. */
  lemma CarefulRunRemembers(ws: seq<World>, ops: seq<Op>, net: string, id: nat, s: int)
    requires Run(ws, ops) && AllCareful(ws, ops, net, id, s)
    ensures AllRemembering(ws, ops, net, id, s)
  {
    forall i | 0 <= i < |ops|
      ensures Remembering(ws[i], ops[i], net, id, s)
    {
      CarefulRunKnows(ws, ops, net, id, s, i);
    }
  }

  lemma ChainedLonger(log: seq<Submission>, x: Submission, id: nat, s: int, bps: pos)
    requires Chained(log, id, s, bps)
    requires OfStart(x, id, s) && HasAny(log, id, s) ==>
               InSomeBand(log, id, s, bps, x.value)
    ensures Chained(log + [x], id, s, bps)
  {
    var more := log + [x];
    forall k | 0 <= k < |more| && OfStart(more[k], id, s) && HasAny(more[..k], id, s)
      ensures Follows(more, id, s, bps, k)
    {
      if k < |log| {
        assert more[..k] == log[..k] && Follows(log, id, s, bps, k);
        var j :| 0 <= j < k && OfStart(log[j], id, s) && Value.WithinBps(log[k].value, log[j].value, bps);
        assert OfStart(more[j], id, s) && Value.WithinBps(more[k].value, more[j].value, bps);
      } else {
        assert more[..k] == log;
        var j :| 0 <= j < |log| && OfStart(log[j], id, s) && Value.WithinBps(x.value, log[j].value, bps);
        assert OfStart(more[j], id, s) && Value.WithinBps(more[k].value, more[j].value, bps);
      }
    }
  }

  // ---- powers, one step at a time

  function Pow(b: int, n: nat): int {
    if n == 0 then 1 else b * Pow(b, n - 1)
  }

  lemma {:induction false} PowPositive(b: pos, n: nat)
    ensures 0 < Pow(b, n)
  {
    if 0 < n {
      PowPositive(b, n - 1);
    }
  }

  /** From a*p^n <= b*q^n and one step c*p <= a*q: c*p^(n+1) <= b*q^(n+1). */
  lemma StepUp(a: nat, b: nat, c: nat, p: pos, q: pos, n: nat)
    requires a * Pow(p, n) <= b * Pow(q, n) && c * p <= a * q
    ensures c * Pow(p, n + 1) <= b * Pow(q, n + 1)
  {
    PowPositive(p, n);
    Exchange(c, p, a, q, Pow(p, n), b, Pow(q, n));
  }

  /** From c*p <= a*q and a*x <= b*y: c*(p*x) <= b*(q*y). */
  lemma Exchange(c: nat, p: nat, a: nat, q: nat, x: nat, b: nat, y: int)
    requires c * p <= a * q && a * x <= b * y
    ensures c * (p * x) <= b * (q * y)
  {
    MulLe(c * p, a * q, x);
    MulLe(a * x, b * y, q);
    assert c * (p * x) == (c * p) * x;
    assert (a * q) * x == (a * x) * q;
    assert b * (q * y) == (b * y) * q;
  }

  /** And from below: from a*p^n <= b*q^n and b*p <= c*q: a*p^(n+1) <= c*q^(n+1). */
  lemma StepDown(a: nat, b: nat, c: nat, p: pos, q: pos, n: nat)
    requires a * Pow(p, n) <= b * Pow(q, n) && b * p <= c * q
    ensures a * Pow(p, n + 1) <= c * Pow(q, n + 1)
  {
    var x, y := Pow(p, n), Pow(q, n);
    PowPositive(q, n);
    MulLe(a * x, b * y, p);
    Regroup(a, x, p);
    Regroup(b, y, p);
    MulLe(b * p, c * q, y);
    Regroup(c, q, y);
  }

  lemma Regroup(a: int, x: int, p: int)
    ensures a * (p * x) == (a * x) * p == (a * p) * x
    ensures a * (x * p) == (a * x) * p
  {
    assert p * x == x * p;
  }

  /** A bound for few steps is one for more. */
  lemma {:induction false} Raise(a: nat, b: nat, p: pos, q: pos, m: nat, n: nat)
    requires p <= q && m <= n && a * Pow(p, m) <= b * Pow(q, m)
    ensures a * Pow(p, n) <= b * Pow(q, n)
    decreases n
  {
    if m < n {
      Raise(a, b, p, q, m, n - 1);
      MulLe(p, q, a);
      assert a * p == p * a && a * q == q * a;
      StepUp(a, b, a, p, q, n - 1);
    }
  }

  // ---- a chained log

  /** How many submissions of the feed under this start come before place k. */
  function Rank(log: seq<Submission>, id: nat, s: int, k: nat): nat
    requires k <= |log|
  {
    if k == 0 then 0 else Rank(log, id, s, k - 1) + if OfStart(log[k - 1], id, s) then 1 else 0
  }

  lemma {:induction false} RankGrows(log: seq<Submission>, id: nat, s: int, j: nat, k: nat)
    requires j < k <= |log| && OfStart(log[j], id, s)
    ensures Rank(log, id, s, j) < Rank(log, id, s, k)
    decreases k
  {
    if j < k - 1 {
      RankGrows(log, id, s, j, k - 1);
    }
  }

  lemma {:induction false} RankZero(log: seq<Submission>, id: nat, s: int, k: nat)
    requires k <= |log|
    ensures Rank(log, id, s, k) == 0 <==> !HasAny(log[..k], id, s)
  {
    if k == 0 {
    } else {
      RankZero(log, id, s, k - 1);
      assert log[..k][..k - 1] == log[..k - 1] && log[..k][k - 1] == log[k - 1];
      assert forall i :: 0 <= i < k - 1 ==> log[..k][i] == log[..k - 1][i];
    }
  }

  /** The first submission of the feed under this start. */
  predicate IsFirst(log: seq<Submission>, id: nat, s: int, first: nat) {
    first < |log| && OfStart(log[first], id, s) && !HasAny(log[..first], id, s)
  }

  lemma FirstIsUnique(log: seq<Submission>, id: nat, s: int, first: nat, k: nat)
    requires IsFirst(log, id, s, first) && IsFirst(log, id, s, k)
    ensures first == k
  {
    if first < k {
      SomeBefore(log, id, s, first, k);
    } else if k < first {
      SomeBefore(log, id, s, k, first);
    }
  }

  lemma SomeBefore(log: seq<Submission>, id: nat, s: int, j: nat, k: nat)
    requires j < k <= |log| && OfStart(log[j], id, s)
    ensures HasAny(log[..k], id, s)
  {
    assert log[..k][j] == log[j];
  }

  /** A value is at most (1 + bps/10000)^r times the first, r submissions before it, in exact integers. */
  lemma {:induction false} ChainAbove(log: seq<Submission>, id: nat, s: int, bps: pos, first: nat, k: nat)
    requires Chained(log, id, s, bps) && IsFirst(log, id, s, first) && k < |log| && OfStart(log[k], id, s)
    ensures var r := Rank(log, id, s, k);
      Abs(log[k].value) * Pow(10_000, r) <= Abs(log[first].value) * Pow(10_000 + bps, r)
    decreases k
  {
    RankZero(log, id, s, k);
    if !HasAny(log[..k], id, s) {
      FirstIsUnique(log, id, s, first, k);
    } else {
      assert Follows(log, id, s, bps, k);
      var j :| 0 <= j < k && OfStart(log[j], id, s) && Value.WithinBps(log[k].value, log[j].value, bps);
      ChainAbove(log, id, s, bps, first, j);
      BandStep(log[k].value, log[j].value, bps);
      var m := Rank(log, id, s, j);
      StepUp(Abs(log[j].value), Abs(log[first].value), Abs(log[k].value), 10_000, 10_000 + bps, m);
      RankGrows(log, id, s, j, k);
      Raise(Abs(log[k].value), Abs(log[first].value), 10_000, 10_000 + bps, m + 1, Rank(log, id, s, k));
    }
  }

  /** And, for a band below 100%, at least (1 - bps/10000)^r times the first, with its sign. */
  lemma {:induction false} ChainBelow(log: seq<Submission>, id: nat, s: int, bps: pos, first: nat, k: nat)
    requires Chained(log, id, s, bps) && IsFirst(log, id, s, first) && k < |log| && OfStart(log[k], id, s)
    requires bps < 10_000
    ensures var r := Rank(log, id, s, k);
      Abs(log[first].value) * Pow(10_000 - bps, r) <= Abs(log[k].value) * Pow(10_000, r)
    ensures (0 < log[first].value <==> 0 < log[k].value) && (log[first].value < 0 <==> log[k].value < 0)
    decreases k
  {
    RankZero(log, id, s, k);
    if !HasAny(log[..k], id, s) {
      FirstIsUnique(log, id, s, first, k);
    } else {
      assert Follows(log, id, s, bps, k);
      var j :| 0 <= j < k && OfStart(log[j], id, s) && Value.WithinBps(log[k].value, log[j].value, bps);
      ChainBelow(log, id, s, bps, first, j);
      BandStep(log[k].value, log[j].value, bps);
      var m := Rank(log, id, s, j);
      StepDown(Abs(log[first].value), Abs(log[j].value), Abs(log[k].value), 10_000 - bps, 10_000, m);
      RankGrows(log, id, s, j, k);
      Raise(Abs(log[first].value), Abs(log[k].value), 10_000 - bps, 10_000, m + 1, Rank(log, id, s, k));
    }
  }

  // ---- whole runs

  /**
   * Over every run with quiet views and a value remembered: the values accepted
   * for a feed under one schedule stay within the compounded band of the first.
   */
  lemma DriftAbove(ws: seq<World>, ops: seq<Op>, net: string, id: nat, s: int, bps: pos, n: nat, first: nat, k: nat)
    requires Run(ws, ops) && n < |ws|
    requires AllQuiet(ws, ops, net, id, s, bps) && AllRemembering(ws, ops, net, id, s)
    requires var log := LogOf(ws[n], net); IsFirst(log, id, s, first) && k < |log| && OfStart(log[k], id, s)
    ensures var log := LogOf(ws[n], net); var r := Rank(log, id, s, k);
      Abs(log[k].value) * Pow(10_000, r) <= Abs(log[first].value) * Pow(10_000 + bps, r)
  {
    RunIsChained(ws, ops, net, id, s, bps, n);
    ChainAbove(LogOf(ws[n], net), id, s, bps, first, k);
  }

  /** For a band below 100% they also stay above its compounded lower edge and keep the first one's sign. */
  lemma DriftBelow(ws: seq<World>, ops: seq<Op>, net: string, id: nat, s: int, bps: pos, n: nat, first: nat, k: nat)
    requires Run(ws, ops) && n < |ws| && bps < 10_000
    requires AllQuiet(ws, ops, net, id, s, bps) && AllRemembering(ws, ops, net, id, s)
    requires var log := LogOf(ws[n], net); IsFirst(log, id, s, first) && k < |log| && OfStart(log[k], id, s)
    ensures var log := LogOf(ws[n], net); var r := Rank(log, id, s, k);
      && Abs(log[first].value) * Pow(10_000 - bps, r) <= Abs(log[k].value) * Pow(10_000, r)
      && (0 < log[first].value <==> 0 < log[k].value) && (log[first].value < 0 <==> log[k].value < 0)
  {
    RunIsChained(ws, ops, net, id, s, bps, n);
    ChainBelow(LogOf(ws[n], net), id, s, bps, first, k);
  }

  /** The memory need not be asked for when saves succeed and nothing lands with an error. */
  lemma CarefulDrift(ws: seq<World>, ops: seq<Op>, net: string, id: nat, s: int, bps: pos, n: nat, first: nat, k: nat)
    requires Run(ws, ops) && n < |ws| && bps < 10_000
    requires AllQuiet(ws, ops, net, id, s, bps) && AllCareful(ws, ops, net, id, s)
    requires var log := LogOf(ws[n], net); IsFirst(log, id, s, first) && k < |log| && OfStart(log[k], id, s)
    ensures var log := LogOf(ws[n], net); var r := Rank(log, id, s, k);
      && Abs(log[k].value) * Pow(10_000, r) <= Abs(log[first].value) * Pow(10_000 + bps, r)
      && Abs(log[first].value) * Pow(10_000 - bps, r) <= Abs(log[k].value) * Pow(10_000, r)
  {
    CarefulRunRemembers(ws, ops, net, id, s);
    DriftAbove(ws, ops, net, id, s, bps, n, first, k);
    DriftBelow(ws, ops, net, id, s, bps, n, first, k);
  }

  // ---- a run that forgets

  /** Tick of feed 7 in round r, fetching v with a transaction that ends as said, and no public value. */
  function Fetching(r: nat, v: int, fate: TxFate): Op {
    var f := FeedView(r * 60, "active", 0, MINUTELY, None, 0);
    DoTick(7, Config(0, 0, 0, true, 100, false),
           Env(Some(f), Some(0), true, Some(v), fate, false, false, true, false))
  }

  /** Chain dev, feed 7 seated from round 0, nothing remembered of it, nothing submitted from round r on. */
  predicate Unaware(w: World, r: nat) {
    && w.net == "dev" && ("dev", 7) in w.seats && w.seats[("dev", 7)] == Seat(0, 0)
    && !Lookup(w.feeds, 7).hasRound && !Lookup(w.feeds, 7).hasValue && Lookup(w.feeds, 7).startAt == 0
    && (7 in w.runners ==> w.runners[7] == Runner(Some(0), 0))
    && forall i :: 0 <= i < |LogOf(w, "dev")| ==> LogOf(w, "dev")[i].round < r
  }

  /** Unaware, the tick sends whatever it fetches, and with an error stays unaware. */
  lemma UnawareSends(w: World, r: nat, v: int, fate: TxFate)
    requires Unaware(w, r) && !fate.NotCommitted?
    ensures var w' := Next(w, Fetching(r, v, fate));
      && Sends(w, Fetching(r, v, fate), "dev", 7, 0)
      && LogOf(w', "dev") == LogOf(w, "dev") + [Submission(7, 0, r, 0, v)]
      && (fate.CommittedWithError? ==> Unaware(w', r + 1))
  {
    var op, l := Fetching(r, v, fate), LocalOf(w, 7);
    var f := op.e.feed.value;
    assert f.sched.Current(r * 60) == Some(r) && Admits(w, 7, f);
    assert Reaches(l, op.e) && InWindow(op.c, f, r);
    var u := Updated(l, 7, op.e);
    assert Submitting(u, op.c, 7, f, r, op.e) == Submitted(u, op.c, 7, f, r, op.e);
  }

  /**
   * A first submission of 1 lands with an error and is not remembered: the
   * next one, of a million, meets no reference, although every view is quiet,
   * every save succeeds and the band is one percent.
   */
  lemma ForgottenFirstDrifts()
    ensures var w0 := World("dev", map[], None, map[], map[], map[]);
      var seated := Seated("dev", 7, 0, MINUTELY, -1);
      var first, second := Fetching(0, 1, CommittedWithError), Fetching(1, 1_000_000, Committed);
      var w1 := Next(w0, seated);
      var w2 := Next(w1, first);
      var w3 := Next(w2, second);
      && Run([w0, w1, w2, w3], [seated, first, second])
      && AllQuiet([w0, w1, w2, w3], [seated, first, second], "dev", 7, 0, 100)
      && LogOf(w3, "dev") == [Submission(7, 0, 0, 0, 1), Submission(7, 0, 1, 0, 1_000_000)]
      && !Chained(LogOf(w3, "dev"), 7, 0, 100)
  {
    hide AfterTick, WillSubmit;
    var w0 := World("dev", map[], None, map[], map[], map[]);
    var seated := Seated("dev", 7, 0, MINUTELY, -1);
    var first, second := Fetching(0, 1, CommittedWithError), Fetching(1, 1_000_000, Committed);
    var w1 := Next(w0, seated);
    var w2 := Next(w1, first);
    var w3 := Next(w2, second);
    assert Unaware(w1, 0);
    UnawareSends(w1, 0, 1, CommittedWithError);
    UnawareSends(w2, 1, 1_000_000, Committed);
    var log := LogOf(w3, "dev");
    assert log[..1][0] == log[0] && HasAny(log[..1], 7, 0);
    assert !Follows(log, 7, 0, 100, 1);
  }
}
