// The adaptive CatchUp batch of the agent (agent/agent.go, crank) and of the
// bot (bot/cranker.go, crankFinalize): out of gas halves it, success grows it.
module CatchUp {
  import opened Basics

  datatype Outcome = OutOfGas | Failed | Done(rounds: int)

  /** What the chain answers to the k-th attempt of a call with a given batch. */
  type Calls = (nat, int) -> Outcome

  function Halved(b: int, k: nat): int {
    if k == 0 then b else Halved(b, k - 1) / 2
  }

  /** The batch a call starts with: unset means the configured maximum. */
  function Start(batch: int, max: pos): pos {
    if batch <= 0 then max else batch
  }

  /** One call: how often it retried, what it sent last, the answer, and the batch it leaves behind. */
  datatype Report = Report(retries: nat, sent: int, answer: Outcome, batch: int)

  /** The retry discipline: halve while out of gas and above one, double a full success below the maximum. */
  ghost predicate Discipline(batch: int, max: pos, calls: Calls, r: Report) {
    var b := Start(batch, max);
    && (forall k :: 0 <= k < r.retries ==> 1 < Halved(b, k) && calls(k, Halved(b, k)) == OutOfGas)
    && r.sent == Halved(b, r.retries) && 1 <= r.sent
    && r.answer == calls(r.retries, r.sent)
    && (r.answer.OutOfGas? ==> r.sent == 1)
    && r.batch == if r.answer.Done? && r.sent <= r.answer.rounds && r.sent < max then 2 * r.sent else r.sent
  }

  class FeedRunner {
    const max: pos
    var batch: int

    constructor (max: pos)
      ensures this.max == max && batch == 0
    {
      this.max, batch := max, 0;
    }

    method Crank(calls: Calls) returns (ghost r: Report, answer: Outcome)
      modifies this
      ensures Discipline(old(batch), max, calls, r)
      ensures batch == r.batch && answer == r.answer
    {
      if batch <= 0 {
        batch := max;
      }
      ghost var first := batch;
      var k := 0;
      while true
        invariant first == Start(old(batch), max)
        invariant batch == Halved(first, k) && 1 <= batch
        invariant forall j :: 0 <= j < k ==> 1 < Halved(first, j) && calls(j, Halved(first, j)) == OutOfGas
        decreases batch
      {
        answer := calls(k, batch);
        if !answer.Done? {
          if answer.OutOfGas? && batch > 1 {
            batch := batch / 2;
            k := k + 1;
            continue;
          }
          r := Report(k, batch, answer, batch);
          return;
        }
        ghost var sent := batch;
        if answer.rounds >= batch && batch < max {
          batch := batch * 2;
        }
        r := Report(k, sent, answer, batch);
        return;
      }
    }
  }

  class Bot {
    const max: pos
    var batch: map<nat, int>

    constructor (max: pos)
      ensures this.max == max && batch == map[]
    {
      this.max, batch := max, map[];
    }

    method CrankFinalize(feed: nat, calls: Calls) returns (ghost r: Report)
      modifies this
      ensures Discipline(if feed in old(batch) then old(batch)[feed] else 0, max, calls, r)
      ensures batch == old(batch)[feed := r.batch]
    {
      var b := if feed in batch then batch[feed] else 0;
      if b <= 0 {
        b := max;
      }
      ghost var first := b;
      var k := 0;
      while true
        invariant b == Halved(first, k) && 1 <= b
        invariant forall j :: 0 <= j < k ==> 1 < Halved(first, j) && calls(j, Halved(first, j)) == OutOfGas
        decreases b
      {
        var answer := calls(k, b);
        r := Report(k, b, answer, b);
        if !answer.Done? {
          if answer.OutOfGas? && b > 1 {
            b := b / 2;
            k := k + 1;
            continue;
          }
          break;
        }
        if answer.rounds >= b && b < max {
          b := b * 2;
          r := r.(batch := b);
        }
        break;
      }
      batch := batch[feed := b];
    }
  }

  // ---- the call, without the recursion

  function Pow2(k: nat): pos {
    if k == 0 then 1 else 2 * Pow2(k - 1)
  }

  /** n is the 2^k-th part of b, rounded down. */
  predicate IsPart(n: int, b: int, k: nat) {
    n * Pow2(k) <= b < (n + 1) * Pow2(k)
  }

  lemma {:induction false} HalvedIsPart(b: nat, k: nat)
    ensures IsPart(Halved(b, k), b, k)
  {
    if 0 < k {
      HalvedIsPart(b, k - 1);
      HalfPart(b, Halved(b, k - 1), Halved(b, k), Pow2(k - 1));
    }
  }

  lemma HalfPart(b: int, h: int, g: int, p: pos)
    requires h * p <= b < (h + 1) * p && 2 * g <= h <= 2 * g + 1
    ensures g * (2 * p) <= b < (g + 1) * (2 * p)
  {
    MulLe(2 * g, h, p);
    MulLe(h + 1, 2 * (g + 1), p);
    Doubling(g, p);
    Doubling(g + 1, p);
  }

  lemma Doubling(n: int, p: int)
    ensures n * (2 * p) == (2 * n) * p
  {
  }

  lemma OnePart(m: int, n: int, b: int, k: nat)
    requires IsPart(m, b, k) && IsPart(n, b, k)
    ensures m == n
  {
    MulCancelLt(m, n + 1, Pow2(k));
    MulCancelLt(n, m + 1, Pow2(k));
  }

  /**
   * A call starts at the remembered batch, or the maximum when there is none;
   * its k-th attempt asks for the 2^k-th part, and it goes on exactly while
   * that runs out of gas and is more than one.
   */
  lemma CrankedExactly(batch: int, max: pos, calls: Calls, r: Report)
    requires Discipline(batch, max, calls, r)
    ensures var first := if batch <= 0 then max else batch;
      && IsPart(r.sent, first, r.retries) && r.answer == calls(r.retries, r.sent)
      && !(r.answer == OutOfGas && 1 < r.sent)
      && forall k, n :: 0 <= k < r.retries && IsPart(n, first, k) ==> 1 < n && calls(k, n) == OutOfGas
    ensures r.answer.Done? && r.sent <= r.answer.rounds && r.sent < max ==> r.batch == 2 * r.sent
    ensures !r.answer.Done? || r.answer.rounds < r.sent || max <= r.sent ==> r.batch == r.sent
  {
    hide IsPart;
    var first := if batch <= 0 then max else batch;
    HalvedIsPart(first, r.retries);
    forall k, n | 0 <= k < r.retries && IsPart(n, first, k)
      ensures 1 < n && calls(k, n) == OutOfGas
    {
      HalvedIsPart(first, k);
      OnePart(n, Halved(first, k), first, k);
    }
  }

  // ---- bounds

  lemma {:induction false} HalvedBounds(b: int, k: nat)
    requires 0 <= b
    ensures 0 <= Halved(b, k) <= b
  {
    if 0 < k {
      HalvedBounds(b, k - 1);
    }
  }

  /** Whatever the chain answers, the batch stays between 1 and max(M, 2M-2). */
  lemma BatchStaysBounded(batch: int, max: pos, calls: Calls, r: Report)
    requires Discipline(batch, max, calls, r)
    requires batch <= Max(max, 2 * max - 2)
    ensures 1 <= r.batch <= Max(max, 2 * max - 2)
  {
    HalvedBounds(Start(batch, max), r.retries);
  }

  // ---- a fixed gas capacity

  /** Every attempt of the call finalises as many rounds as asked and available, and runs out of gas above c. */
  ghost predicate GasLimited(calls: Calls, c: pos, available: nat) {
    forall k: nat, b: int ::
      && (calls(k, b) == OutOfGas <==> c < Min(b, available))
      && (calls(k, b).Done? ==> calls(k, b).rounds == Min(b, available))
  }

  /** A call that retried ends within the capacity, at no less than half of it. */
  lemma RetriedBatchFits(batch: int, max: pos, calls: Calls, r: Report, c: pos, available: nat)
    requires Discipline(batch, max, calls, r) && GasLimited(calls, c, available)
    ensures r.answer.Done? ==> Min(r.sent, available) <= c
    ensures 0 < r.retries ==> r.sent <= c <= 2 * r.sent && r.batch <= 2 * c
  {
    var b := Start(batch, max);
    assert r.answer == OutOfGas <==> c < Min(r.sent, available);
    if 0 < r.retries {
      var p := Halved(b, r.retries - 1);
      assert calls(r.retries - 1, p) == OutOfGas;
      assert r.sent == p / 2;
    }
  }

  /** A batch of at most twice the capacity retries at most once and stays so, however many rounds wait. */
  lemma SettledStep(batch: int, max: pos, calls: Calls, r: Report, c: pos, available: nat)
    requires Discipline(batch, max, calls, r) && GasLimited(calls, c, available)
    requires 0 < batch <= 2 * c
    ensures r.retries <= 1 && 0 < r.batch <= 2 * c
  {
    assert Halved(batch, 1) == batch / 2;
    assert calls(1, Halved(batch, 1)) == OutOfGas <==> c < Min(Halved(batch, 1), available);
    if r.retries == 1 {
      RetriedBatchFits(batch, max, calls, r, c, available);
    } else if r.retries == 0 {
      assert r.sent == batch;
      assert r.answer.Done? ==> Min(r.sent, available) <= c;
    }
  }

  datatype Call = Call(calls: Calls, available: nat, report: Report)

  function Before(first: int, log: seq<Call>, i: nat): int
    requires i <= |log|
  {
    if i == 0 then first else log[i - 1].report.batch
  }

  /** One call of a sequence, starting from the batch the one before left behind. */
  ghost predicate CallAt(first: int, max: pos, c: pos, log: seq<Call>, i: nat)
    requires i < |log|
  {
    && GasLimited(log[i].calls, c, log[i].available)
    && Discipline(Before(first, log, i), max, log[i].calls, log[i].report)
  }

  predicate Settled(call: Call, c: pos) {
    0 < call.report.batch <= 2 * c
  }

  lemma HalvingSettles(first: int, max: pos, c: pos, log: seq<Call>, i: nat)
    requires i < |log| && CallAt(first, max, c, log, i) && 0 < log[i].report.retries
    ensures Settled(log[i], c)
  {
    RetriedBatchFits(Before(first, log, i), max, log[i].calls, log[i].report, c, log[i].available);
  }

  lemma SettledStays(first: int, max: pos, c: pos, log: seq<Call>, j: nat)
    requires 0 < j < |log| && CallAt(first, max, c, log, j) && Settled(log[j - 1], c)
    ensures Settled(log[j], c) && log[j].report.retries <= 1
  {
    SettledStep(Before(first, log, j), max, log[j].calls, log[j].report, c, log[j].available);
  }

  /** Once any call had to halve, every later call retries at most once. */
  lemma {:induction false} AtMostOneRetryLater(first: int, max: pos, c: pos, log: seq<Call>, i: nat, j: nat)
    requires forall k :: 0 <= k < |log| ==> CallAt(first, max, c, log, k)
    requires i < j < |log| && 0 < log[i].report.retries
    ensures log[j].report.retries <= 1 && Settled(log[j], c)
    decreases j - i
  {
    if j == i + 1 {
      HalvingSettles(first, max, c, log, i);
    } else {
      AtMostOneRetryLater(first, max, c, log, i, j - 1);
    }
    SettledStays(first, max, c, log, j);
  }

  // ---- growing back

  function Doubled(b: int, k: nat): int {
    if k == 0 then b else 2 * Doubled(b, k - 1)
  }

  /** The call finalised all it asked for at the first attempt. */
  ghost predicate FullAtOnce(call: Call) {
    call.report.retries == 0 && call.report.answer.Done? && call.report.sent <= call.report.answer.rounds
  }

  lemma FullDoubles(batch: pos, max: pos, call: Call)
    requires Discipline(batch, max, call.calls, call.report) && FullAtOnce(call)
    ensures call.report.batch == if batch < max then 2 * batch else batch
  {
  }

  lemma DoublingStep(batch: int, doubled: int, max: pos, next: int)
    requires 0 < doubled && Min(max, doubled) <= batch && (batch < max ==> batch == doubled)
    requires next == if batch < max then 2 * batch else batch
    ensures Min(max, 2 * doubled) <= next && (next < max ==> next == 2 * doubled)
  {
  }

  ghost predicate FullAt(first: int, max: pos, log: seq<Call>, i: nat)
    requires i < |log|
  {
    Discipline(Before(first, log, i), max, log[i].calls, log[i].report) && FullAtOnce(log[i])
  }

  /** While every call finalises all it asks for, the batch doubles each time until it has reached the maximum. */
  lemma {:induction false} GrowsBack(first: int, max: pos, log: seq<Call>, n: nat)
    requires 0 < first && n <= |log|
    requires forall k :: 0 <= k < |log| ==> FullAt(first, max, log, k)
    ensures Min(max, Doubled(first, n)) <= Before(first, log, n)
    ensures Before(first, log, n) < max ==> Before(first, log, n) == Doubled(first, n)
  {
    if 0 < n {
      GrowsBack(first, max, log, n - 1);
      DoubledIsPositive(first, n - 1);
      var batch := Before(first, log, n - 1);
      assert FullAt(first, max, log, n - 1);
      assert Before(first, log, n) == if batch < max then 2 * batch else batch by {
        hide Doubled, Discipline, FullAtOnce;
        FullDoubles(batch, max, log[n - 1]);
      }
      hide Discipline, FullAtOnce, FullAt;
      DoublingStep(batch, Doubled(first, n - 1), max, Before(first, log, n));
    }
  }

  lemma {:induction false} DoubledIsPositive(b: pos, k: nat)
    ensures 0 < Doubled(b, k)
  {
    if 0 < k {
      DoubledIsPositive(b, k - 1);
    }
  }
}
