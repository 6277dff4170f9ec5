// The order of an agent's rounds: on chain over whole runs, and in its memory
// across ticks and restarts.
module AgentOrder {
  import opened Basics
  import opened AgentState
  import opened Agent
  import opened AgentRuns
  import S = Schedule

  // ---- on chain

  /** The step shows the feed on chain net: a tick that reads it, or a seating. */
  predicate Shows(w: World, op: Op, net: string, id: nat) {
    match op
    case DoTick(i, _, e) => i == id && w.net == net && e.feed.Some?
    case Seated(chain, feed, _, _, _) => chain == net && feed == id
    case Restart(_) => false
  }

  /** The schedule a step shows. */
  function SchedOf(op: Op): S.Schedule
    requires op.Seated? || (op.DoTick? && op.e.feed.Some?)
  {
    if op.Seated? then op.sched else op.e.feed.value.sched
  }

  /** And the chain time it happens at. */
  function TimeOf(op: Op): int
    requires op.Seated? || (op.DoTick? && op.e.feed.Some?)
  {
    if op.Seated? then op.now else op.e.feed.value.now
  }

  /** Like Shows, under the schedule start s. */
  predicate ShowsStart(w: World, op: Op, net: string, id: nat, s: int) {
    Shows(w, op, net, id) && SchedOf(op).startAt == s
  }

  /** What shows the feed under this start shows one schedule, at times that do not go back, and no other between. */
  ghost predicate Timely(ws: seq<World>, ops: seq<Op>, net: string, id: nat, s: int)
    requires |ws| == |ops| + 1
  {
    && (forall i, j :: 0 <= i < j < |ops| && ShowsStart(ws[i], ops[i], net, id, s)
                       && ShowsStart(ws[j], ops[j], net, id, s) ==>
          SchedOf(ops[i]) == SchedOf(ops[j]) && TimeOf(ops[i]) <= TimeOf(ops[j]))
    && (forall i, k, j :: 0 <= i < k < j < |ops| && ShowsStart(ws[i], ops[i], net, id, s)
                          && Shows(ws[k], ops[k], net, id) && ShowsStart(ws[j], ops[j], net, id, s) ==>
          ShowsStart(ws[k], ops[k], net, id, s))
  }

  predicate OfStart(x: Submission, id: nat, s: int) {
    x.feed == id && x.startAt == s
  }

  /** The step shows the feed while r is the current round. */
  predicate ShowsRound(w: World, op: Op, net: string, id: nat, s: int, r: nat) {
    ShowsStart(w, op, net, id, s) && SchedOf(op).Valid() && SchedOf(op).Current(TimeOf(op)) == Some(r)
  }

  /** Round r was the current one at some step before n. */
  ghost predicate WasCurrent(ws: seq<World>, ops: seq<Op>, net: string, id: nat, s: int, n: nat, r: nat)
    requires |ws| == |ops| + 1 && n <= |ops|
  {
    exists i :: 0 <= i < n && ShowsRound(ws[i], ops[i], net, id, s, r)
  }

  predicate Increasing(log: seq<Submission>, id: nat, s: int) {
    forall a, b :: 0 <= a < b < |log| && OfStart(log[a], id, s) && OfStart(log[b], id, s) ==>
      log[a].round < log[b].round
  }

  /** Every submission of the feed under this start was made in a round current at some step before n. */
  ghost predicate AllWereCurrent(ws: seq<World>, ops: seq<Op>, net: string, id: nat, s: int, n: nat,
                                 log: seq<Submission>)
    requires |ws| == |ops| + 1 && n <= |ops|
  {
    forall k :: 0 <= k < |log| && OfStart(log[k], id, s) ==> WasCurrent(ws, ops, net, id, s, n, log[k].round)
  }

  /** The provider's seat owes only from beyond what the feed's log holds from other slots. */
  predicate SeatCovers(w: World, log: seq<Submission>, net: string, id: nat, s: int) {
    forall k :: 0 <= k < |log| && OfStart(log[k], id, s) ==>
      (net, id) in w.seats
      && (log[k].slot != w.seats[(net, id)].slot ==> log[k].round < w.seats[(net, id)].owed)
  }

  // ---- one step, as far as one feed and schedule start are concerned

  /** A submission is to the current round of a tick, from the seat, and owed. */
  predicate FromSeat(w: World, op: Op, net: string, id: nat, s: int, x: Submission) {
    && ShowsRound(w, op, net, id, s, x.round)
    && (net, id) in w.seats && x.slot == w.seats[(net, id)].slot && w.seats[(net, id)].owed <= x.round
  }

  predicate LogStepped(w: World, w': World, op: Op, net: string, id: nat, s: int) {
    var before, after := LogOf(w, net), LogOf(w', net);
    after != before ==>
      && |after| == |before| + 1 && after == before + [after[|before|]]
      && (OfStart(after[|before|], id, s) ==> FromSeat(w, op, net, id, s, after[|before|]))
  }

  predicate SeatStepped(w: World, w': World, op: Op, net: string, id: nat) {
    if op.Seated? && op.chain == net && op.feed == id then
      LogOf(w', net) == LogOf(w, net)
      && (net, id) in w'.seats && w'.seats[(net, id)] == Seat(op.slot, SeatedFrom(op.sched, op.now))
    else
      (net, id) in w.seats ==> (net, id) in w'.seats && w'.seats[(net, id)] == w.seats[(net, id)]
  }

  lemma StepsOf(w: World, op: Op, net: string, id: nat, s: int)
    ensures LogStepped(w, Next(w, op), op, net, id, s) && SeatStepped(w, Next(w, op), op, net, id)
  {
    LogStep(w, Next(w, op), op, net);
    var before, after := LogOf(w, net), LogOf(Next(w, op), net);
    if after != before {
      assert after == before + [after[|before|]];
    }
  }

  /**
   * Over every run, restarts, re-seatings and reopenings included, the
   * accepted submissions of one feed and schedule have strictly increasing
   * rounds, each the current one of some tick.
   */
  lemma RoundsStrictlyIncrease(ws: seq<World>, ops: seq<Op>, net: string, id: nat, s: int, n: nat)
    requires Run(ws, ops) && Timely(ws, ops, net, id, s) && n < |ws|
    ensures Increasing(LogOf(ws[n], net), id, s)
    ensures AllWereCurrent(ws, ops, net, id, s, n, LogOf(ws[n], net))
  {
    forall i | 0 <= i < |ops|
      ensures LogStepped(ws[i], ws[i + 1], ops[i], net, id, s) && SeatStepped(ws[i], ws[i + 1], ops[i], net, id)
    {
      StepsOf(ws[i], ops[i], net, id, s);
    }
    forall i | 0 <= i < |ws|
      ensures OncePerSlot(LogOf(ws[i], net))
    {
      RunIsGood(ws, ops, i);
    }
    IncreaseAlong(ws, ops, net, id, s, n);
  }

  /** So the provider is never accepted twice in a round, whatever slots it held. */
  lemma NeverTwiceInARound(ws: seq<World>, ops: seq<Op>, net: string, n: nat)
    requires Run(ws, ops) && n < |ws|
    requires forall id, s :: Timely(ws, ops, net, id, s)
    ensures OncePerRound(LogOf(ws[n], net))
  {
    var log := LogOf(ws[n], net);
    forall i, j | 0 <= i < j < |log|
      ensures !SameRound(log[i], log[j])
    {
      RoundsStrictlyIncrease(ws, ops, net, log[i].feed, log[i].startAt, n);
      assert OfStart(log[i], log[i].feed, log[i].startAt);
    }
  }

  /** Some step from n on still shows the feed under this start. */
  ghost predicate ShownAgain(ws: seq<World>, ops: seq<Op>, net: string, id: nat, s: int, n: nat)
    requires |ws| == |ops| + 1
  {
    exists j :: n <= j < |ops| && ShowsStart(ws[j], ops[j], net, id, s)
  }

  /** What holds of a chain's log before step n. */
  ghost predicate Ordered(ws: seq<World>, ops: seq<Op>, net: string, id: nat, s: int, n: nat)
    requires |ws| == |ops| + 1 && n < |ws|
  {
    var log := LogOf(ws[n], net);
    && Increasing(log, id, s) && AllWereCurrent(ws, ops, net, id, s, n, log) && OncePerSlot(log)
    && (ShownAgain(ws, ops, net, id, s, n) ==> SeatCovers(ws[n], log, net, id, s))
  }

  lemma {:induction false} IncreaseAlong(ws: seq<World>, ops: seq<Op>, net: string, id: nat, s: int, n: nat)
    requires |ws| == |ops| + 1 && Timely(ws, ops, net, id, s) && n < |ws| && LogOf(ws[0], net) == []
    requires forall i :: 0 <= i < |ops| ==> LogStepped(ws[i], ws[i + 1], ops[i], net, id, s)
    requires forall i :: 0 <= i < |ops| ==> SeatStepped(ws[i], ws[i + 1], ops[i], net, id)
    requires forall i :: 0 <= i < |ws| ==> OncePerSlot(LogOf(ws[i], net))
    ensures Ordered(ws, ops, net, id, s, n)
  {
    if 0 < n {
      hide Timely, LogStepped, SeatStepped, Ordered;
      IncreaseAlong(ws, ops, net, id, s, n - 1);
      assert LogStepped(ws[n - 1], ws[n - 1 + 1], ops[n - 1], net, id, s);
      assert SeatStepped(ws[n - 1], ws[n - 1 + 1], ops[n - 1], net, id);
      OrderedStep(ws, ops, net, id, s, n - 1);
    }
  }

  lemma OrderedStep(ws: seq<World>, ops: seq<Op>, net: string, id: nat, s: int, n: nat)
    requires |ws| == |ops| + 1 && Timely(ws, ops, net, id, s) && n < |ops| && Ordered(ws, ops, net, id, s, n)
    requires LogStepped(ws[n], ws[n + 1], ops[n], net, id, s) && SeatStepped(ws[n], ws[n + 1], ops[n], net, id)
    requires OncePerSlot(LogOf(ws[n + 1], net))
    ensures Ordered(ws, ops, net, id, s, n + 1)
  {
    hide Timely, SeatedFrom, AllWereCurrent, Increasing, OncePerSlot;
    var before, after := LogOf(ws[n], net), LogOf(ws[n + 1], net);
    CurrentLater(ws, ops, net, id, s, n, before);
    if after != before {
      OneMoreIncreases(ws, ops, net, id, s, n, before, after[|before|]);
      assert !(ops[n].Seated? && ops[n].chain == net && ops[n].feed == id);
      SameSeatCovers(ws[n], ws[n + 1], after, net, id, s);
    } else if ops[n].Seated? && ops[n].chain == net && ops[n].feed == id {
      SeatingCovers(ws, ops, net, id, s, n, before);
    } else {
      SameSeatCovers(ws[n], ws[n + 1], before, net, id, s);
    }
  }

  lemma SameSeatCovers(w: World, w': World, log: seq<Submission>, net: string, id: nat, s: int)
    requires (net, id) in w.seats ==> (net, id) in w'.seats && w'.seats[(net, id)] == w.seats[(net, id)]
    ensures SeatCovers(w, log, net, id, s) ==> SeatCovers(w', log, net, id, s)
  {
  }

  /** Tick n's submission continues an increasing log. */
  lemma OneMoreIncreases(ws: seq<World>, ops: seq<Op>, net: string, id: nat, s: int, n: nat,
                         before: seq<Submission>, x: Submission)
    requires |ws| == |ops| + 1 && n < |ops| && Timely(ws, ops, net, id, s)
    requires Increasing(before, id, s) && AllWereCurrent(ws, ops, net, id, s, n, before)
    requires AllWereCurrent(ws, ops, net, id, s, n + 1, before) && OncePerSlot(before + [x])
    requires ShownAgain(ws, ops, net, id, s, n) ==> SeatCovers(ws[n], before, net, id, s)
    requires OfStart(x, id, s) ==> FromSeat(ws[n], ops[n], net, id, s, x)
    ensures Increasing(before + [x], id, s)
    ensures AllWereCurrent(ws, ops, net, id, s, n + 1, before + [x])
    ensures ShownAgain(ws, ops, net, id, s, n) ==> SeatCovers(ws[n], before + [x], net, id, s)
  {
    if OfStart(x, id, s) {
      assert ShownAgain(ws, ops, net, id, s, n);
      NewRoundIsLater(ws, ops, net, id, s, n, before, x);
      assert WasCurrent(ws, ops, net, id, s, n + 1, x.round);
    }
  }

  lemma CurrentLater(ws: seq<World>, ops: seq<Op>, net: string, id: nat, s: int, n: nat, log: seq<Submission>)
    requires |ws| == |ops| + 1 && n < |ops| && AllWereCurrent(ws, ops, net, id, s, n, log)
    ensures AllWereCurrent(ws, ops, net, id, s, n + 1, log)
  {
    forall k | 0 <= k < |log| && OfStart(log[k], id, s)
      ensures WasCurrent(ws, ops, net, id, s, n + 1, log[k].round)
    {
      assert WasCurrent(ws, ops, net, id, s, n, log[k].round);
    }
  }

  /** The round of tick n's submission is beyond every earlier one of its schedule: later, or from another slot. */
  lemma NewRoundIsLater(ws: seq<World>, ops: seq<Op>, net: string, id: nat, s: int, n: nat,
                        before: seq<Submission>, x: Submission)
    requires |ws| == |ops| + 1 && n < |ops| && Timely(ws, ops, net, id, s)
    requires AllWereCurrent(ws, ops, net, id, s, n, before) && OncePerSlot(before + [x])
    requires SeatCovers(ws[n], before, net, id, s)
    requires OfStart(x, id, s) && FromSeat(ws[n], ops[n], net, id, s, x)
    ensures forall a :: 0 <= a < |before| && OfStart(before[a], id, s) ==> before[a].round < x.round
  {
    forall a | 0 <= a < |before| && OfStart(before[a], id, s)
      ensures before[a].round < x.round
    {
      if before[a].slot == x.slot {
        assert WasCurrent(ws, ops, net, id, s, n, before[a].round);
        var i :| 0 <= i < n && ShowsRound(ws[i], ops[i], net, id, s, before[a].round);
        S.CurrentMonotone(SchedOf(ops[i]), TimeOf(ops[i]), TimeOf(ops[n]));
        var log := before + [x];
        assert log[a] == before[a] && log[|before|] == x;
        assert !SameRound(log[a], log[|before|]);
      }
    }
  }

  /** A seating owes from beyond every round of the log, unless this start is not shown again. */
  lemma SeatingCovers(ws: seq<World>, ops: seq<Op>, net: string, id: nat, s: int, n: nat, log: seq<Submission>)
    requires |ws| == |ops| + 1 && n < |ops| && Timely(ws, ops, net, id, s)
    requires AllWereCurrent(ws, ops, net, id, s, n, log)
    requires ops[n].Seated? && ops[n].chain == net && ops[n].feed == id
    requires SeatStepped(ws[n], ws[n + 1], ops[n], net, id)
    ensures ShownAgain(ws, ops, net, id, s, n + 1) ==> SeatCovers(ws[n + 1], log, net, id, s)
  {
    if ShownAgain(ws, ops, net, id, s, n + 1) {
      var j :| n + 1 <= j < |ops| && ShowsStart(ws[j], ops[j], net, id, s);
      forall k | 0 <= k < |log| && OfStart(log[k], id, s)
        ensures log[k].round < SeatedFrom(ops[n].sched, ops[n].now)
      {
        assert WasCurrent(ws, ops, net, id, s, n, log[k].round);
        var i :| 0 <= i < n && ShowsRound(ws[i], ops[i], net, id, s, log[k].round);
        assert Shows(ws[n], ops[n], net, id);
        assert ShowsStart(ws[n], ops[n], net, id, s);
        NewSeatOwesLater(ops[n].sched, TimeOf(ops[i]), ops[n].now, log[k].round);
      }
    }
  }

  /** A step adds at most one submission to a chain's log: the tick's, in its current round, admitted. */
  lemma LogStep(w: World, w': World, op: Op, net: string)
    requires w' == Next(w, op)
    ensures var before, after := LogOf(w, net), LogOf(w', net);
      && before <= after && |after| <= |before| + 1
      && (after != before ==>
            && op.DoTick? && op.e.feed.Some? && w.net == net && op.e.fetched.Some?
            && WillSubmit(LocalOf(w, op.id), op.c, op.id, op.e) && Admits(w, op.id, op.e.feed.value)
            && var f := op.e.feed.value;
               after[|before|] == Submission(op.id, f.sched.startAt, f.sched.Current(f.now).value, f.slot,
                                             op.e.fetched.value))
  {
    if op.DoTick? {
      TickSubmitsExactly(LocalOf(w, op.id), op.c, op.id, Met(w, op.id, op.e));
    }
  }

  // ---- in time

  /** The step is a tick on this chain that may send x, to an open round and with the margin left. */
  predicate SentInTime(w: World, op: Op, net: string, x: Submission) {
    && op.DoTick? && op.id == x.feed && w.net == net && op.e.feed.Some? && op.e.fetched == Some(x.value)
    && var f := op.e.feed.value;
       && x.startAt == f.sched.startAt && x.slot == f.slot
       && x.startAt + x.round * f.sched.interval + op.c.jitter <= f.now
       && f.now + op.c.timeout + 2 < x.startAt + x.round * f.sched.interval + f.sched.submitWindow
       && MaySend(LocalOf(w, x.feed), op.c, x.feed, op.e, x.round)
  }

  lemma WasInTime(l: Local, c: Config, id: nat, e: Env, r: nat)
    requires MaySend(l, c, id, e, r)
    ensures InTime(c, e.feed.value, r)
  {
  }

  /** If the step adds to the chain's log, it adds what it sent in time. */
  predicate AddsInTime(w: World, w': World, op: Op, net: string) {
    var before, after := LogOf(w, net), LogOf(w', net);
    after == before || (|before| < |after| && after == before + [after[|before|]]
                        && SentInTime(w, op, net, after[|before|]))
  }

  lemma StepInTime(w: World, w': World, op: Op, net: string)
    requires w' == Next(w, op)
    ensures AddsInTime(w, w', op, net)
  {
    hide MaySend, WillSubmit, AfterTick;
    var before, after := LogOf(w, net), LogOf(w', net);
    LogStep(w, w', op, net);
    if after != before {
      assert after == before + [after[|before|]];
      MaySendIsWillSubmit(LocalOf(w, op.id), op.c, op.id, op.e, after[|before|].round);
      WasInTime(LocalOf(w, op.id), op.c, op.id, op.e, after[|before|].round);
    }
  }

  /** x was sent in time before step n. */
  ghost predicate WasSent(ws: seq<World>, ops: seq<Op>, net: string, n: nat, x: Submission)
    requires n <= |ops| <= |ws|
  {
    exists i :: 0 <= i < n && SentInTime(ws[i], ops[i], net, x)
  }

  /**
   * Over every run, each accepted submission was sent by a tick that found its
   * round open, with the jitter past and the margin left, and everything else
   * the agent asks for.
   */
  lemma {:induction false} AllSentInTime(ws: seq<World>, ops: seq<Op>, net: string, n: nat)
    requires Run(ws, ops) && n < |ws|
    ensures forall k :: 0 <= k < |LogOf(ws[n], net)| ==> WasSent(ws, ops, net, n, LogOf(ws[n], net)[k])
  {
    if 0 < n {
      hide SentInTime, Next;
      AllSentInTime(ws, ops, net, n - 1);
      StepInTime(ws[n - 1], ws[n], ops[n - 1], net);
      var before, after := LogOf(ws[n - 1], net), LogOf(ws[n], net);
      forall k | 0 <= k < |after|
        ensures WasSent(ws, ops, net, n, after[k])
      {
        if k < |before| {
          assert WasSent(ws, ops, net, n - 1, before[k]);
        }
      }
    }
  }

  /** And whenever a tick may send to a round that its seat owes and the transaction lands, the chain holds it. */
  lemma SendsWhenItMay(ws: seq<World>, ops: seq<Op>, i: nat, r: nat)
    requires Run(ws, ops) && i < |ops| && ops[i].DoTick?
    requires MaySend(LocalOf(ws[i], ops[i].id), ops[i].c, ops[i].id, ops[i].e, r) && !ops[i].e.fate.NotCommitted?
    requires (ws[i].net, ops[i].id) in ws[i].seats
    requires var seat := ws[i].seats[(ws[i].net, ops[i].id)]; seat.slot == ops[i].e.feed.value.slot && seat.owed <= r
    ensures var f := ops[i].e.feed.value;
      LogOf(ws[i + 1], ws[i].net)
      == LogOf(ws[i], ws[i].net)
         + [Submission(ops[i].id, f.sched.startAt, r, f.slot, ops[i].e.fetched.value)]
  {
    var w, id, c, e := ws[i], ops[i].id, ops[i].c, ops[i].e;
    WasInTime(LocalOf(w, id), c, id, e, r);
    hide AfterTick, MaySend;
    MaySendIsWillSubmit(LocalOf(w, id), c, id, e, r);
    TickSendsExactly(LocalOf(w, id), c, id, e);
    assert Met(w, id, e) == e;
  }

  // ---- in memory

  /** The log has grown, for the feed by rounds beyond the given one only. */
  predicate OnlyBeyond(log: seq<Submission>, log': seq<Submission>, id: nat, round: int) {
    log <= log' && forall k :: |log| <= k < |log'| && log'[k].feed == id ==> round < log'[k].round
  }

  lemma BeyondTwice(a: seq<Submission>, b: seq<Submission>, c: seq<Submission>, id: nat, r: int, r': int)
    requires OnlyBeyond(a, b, id, r) && OnlyBeyond(b, c, id, r') && r <= r'
    ensures OnlyBeyond(a, c, id, r)
  {
    assert forall k :: |a| <= k < |b| ==> c[k] == b[k];
  }

  /** fs' knows at least the round that fs knows, under the same schedule start. */
  predicate KnowsAsMuch(fs: FeedState, fs': FeedState) {
    fs.hasRound ==> Grown(fs, fs')
  }

  /** The world has moved on: same chain, a grown round under the same schedule start, a log grown beyond it. */
  predicate MovedOn(w: World, w': World, id: nat) {
    var fs, fs' := Lookup(w.feeds, id), Lookup(w'.feeds, id);
    && w'.net == w.net
    && fs'.hasRound && KnowsAsMuch(fs, fs')
    && OnlyBeyond(LogOf(w, w.net), LogOf(w', w.net), id, fs.lastRound)
  }

  lemma MovedTwice(a: World, b: World, c: World, id: nat)
    requires Lookup(a.feeds, id).hasRound && MovedOn(a, b, id) && MovedOn(b, c, id)
    ensures MovedOn(a, c, id)
  {
    BeyondTwice(LogOf(a, a.net), LogOf(b, a.net), LogOf(c, a.net), id,
                Lookup(a.feeds, id).lastRound, Lookup(b.feeds, id).lastRound);
  }

  /** The file, if of this chain, knows as much of the feed as the process. */
  predicate FileHolds(w: World, id: nat) {
    Lookup(w.feeds, id).hasRound ==>
      && w.file.Some? && w.file.value.net == w.net
      && KnowsAsMuch(Lookup(w.feeds, id), Lookup(w.file.value.feeds, id))
  }

  /** A restart on the same chain keeps what was remembered of a feed if and only if the file holds it. */
  lemma RestartKeepsExactly(w: World, id: nat)
    requires GoodWorld(w)
    ensures KnowsAsMuch(Lookup(w.feeds, id), Lookup(Next(w, Restart(w.net)).feeds, id)) <==> FileHolds(w, id)
  {
  }

  /** A tick shows feed id the schedule start s, if any; a restart is on the same chain. */
  predicate Stays(w: World, op: Op, id: nat, s: int) {
    match op
    case DoTick(i, _, e) => i == id && e.feed.Some? ==> e.feed.value.sched.startAt == s
    case Restart(net) => net == w.net
    case Seated(_, _, _, _, _) => true
  }

  /** Moreover the file a restart reads holds the feed. */
  predicate Steady(w: World, op: Op, id: nat, s: int) {
    Stays(w, op, id, s) && (op.Restart? ==> FileHolds(w, id))
  }

  lemma SteadyStep(w: World, w': World, op: Op, id: nat)
    requires Lookup(w.feeds, id).hasRound && Steady(w, op, id, Lookup(w.feeds, id).startAt) && w' == Next(w, op)
    ensures MovedOn(w, w', id)
  {
    hide AfterTick;
    if op.DoTick? {
      var l, e := LocalOf(w, op.id), Met(w, op.id, op.e);
      if op.id == id {
        LastRoundGrows(l, op.c, id, e);
        SubmitsBeyond(l, op.c, id, e);
      } else {
        TickLeavesOthers(l, op.c, op.id, e, id);
        TickSubmitsExactly(l, op.c, op.id, e);
      }
    }
  }

  /** If w knows a round of the feed under the schedule start s, w' has moved on from it. */
  predicate MovesFrom(w: World, w': World, id: nat, s: int) {
    Lookup(w.feeds, id).hasRound && Lookup(w.feeds, id).startAt == s ==> MovedOn(w, w', id)
  }

  lemma {:induction false} MovedAlong(ws: seq<World>, id: nat, i: nat, j: nat)
    requires i <= j < |ws| && Lookup(ws[i].feeds, id).hasRound
    requires forall k :: i <= k < j ==> MovesFrom(ws[k], ws[k + 1], id, Lookup(ws[i].feeds, id).startAt)
    ensures MovedOn(ws[i], ws[j], id)
    decreases j
  {
    if i < j {
      MovedAlong(ws, id, i, j - 1);
      assert MovesFrom(ws[j - 1], ws[j - 1 + 1], id, Lookup(ws[i].feeds, id).startAt);
      MovedTwice(ws[i], ws[j - 1], ws[j], id);
    }
  }

  /**
   * While the schedule start stands, across ticks and across restarts whose
   * file holds the feed, the remembered round only grows and every submission
   * is beyond it.
   */
  lemma RoundsIncrease(ws: seq<World>, ops: seq<Op>, id: nat, i: nat, j: nat)
    requires Run(ws, ops) && i <= j < |ws|
    requires Lookup(ws[i].feeds, id).hasRound
    requires forall k :: i <= k < j ==> Steady(ws[k], ops[k], id, Lookup(ws[i].feeds, id).startAt)
    ensures MovedOn(ws[i], ws[j], id)
  {
    var s := Lookup(ws[i].feeds, id).startAt;
    forall k | i <= k < j
      ensures MovesFrom(ws[k], ws[k + 1], id, s)
    {
      assert Steady(ws[k], ops[k], id, s);
      if Lookup(ws[k].feeds, id).hasRound && Lookup(ws[k].feeds, id).startAt == s {
        SteadyStep(ws[k], ws[k + 1], ops[k], id);
      }
    }
    MovedAlong(ws, id, i, j);
  }

  // ---- when the file holds what is remembered

  /** Every tick that remembers a round could write the file. */
  predicate Saves(op: Op) {
    op.DoTick? ==> op.e.saves
  }

  ghost predicate AllHeld(feeds: Feeds, file: Option<File>, net: string) {
    forall id :: Lookup(feeds, id).hasRound ==>
      file.Some? && file.value.net == net && KnowsAsMuch(Lookup(feeds, id), Lookup(file.value.feeds, id))
  }

  /** Changing one feed's state: forgetting its round, leaving it, or writing the file as well. */
  lemma RememberKeepsHeld(l: Local, id: nat, fs: FeedState, written: bool)
    requires AllHeld(l.feeds, l.file, l.net)
    requires written || KnowsAsMuch(fs, Lookup(l.feeds, id))
    ensures var l' := Saved(l.(feeds := l.feeds[id := fs]), written);
      AllHeld(l'.feeds, l'.file, l'.net) && l'.net == l.net
  {
    var l' := Saved(l.(feeds := l.feeds[id := fs]), written);
    forall i | Lookup(l'.feeds, i).hasRound
      ensures l'.file.Some? && l'.file.value.net == l'.net
              && KnowsAsMuch(Lookup(l'.feeds, i), Lookup(l'.file.value.feeds, i))
    {
      assert i != id ==> Lookup(l'.feeds, i) == Lookup(l.feeds, i);
      assert Lookup(l'.feeds, id) == fs;
    }
  }

  lemma SubmittingKeepsHeld(l: Local, c: Config, id: nat, f: FeedView, cur: nat, e: Env)
    requires e.saves && AllHeld(l.feeds, l.file, l.net)
    ensures var l' := Submitting(l, c, id, f, cur, e); AllHeld(l'.feeds, l'.file, l'.net) && l'.net == l.net
  {
  }

  lemma TickKeepsHeld(l: Local, c: Config, id: nat, e: Env)
    requires e.saves && AllHeld(l.feeds, l.file, l.net)
    ensures var l' := AfterTick(l, c, id, e); AllHeld(l'.feeds, l'.file, l'.net) && l'.net == l.net
  {
    if Reaches(l, e) {
      var f := e.feed.value;
      var cur := f.sched.Current(f.now).value;
      var u := Updated(l, id, e);
      RememberKeepsHeld(l, id, Rescheduled(Lookup(l.feeds, id), f.sched.startAt), false);
      assert AllHeld(u.feeds, u.file, u.net);
      if u.obliged.value <= cur {
        SubmittingKeepsHeld(u, c, id, f, cur, e);
        var s := Submitting(u, c, id, f, cur, e);
        RememberKeepsHeld(s, id, Lookup(s.feeds, id).(lastClaimAt := f.now), e.savesClaim);
      }
    }
  }

  /** Over every run whose saves succeed, the file always holds everything remembered, so no restart lowers a round. */
  lemma {:induction false} SavedRunHolds(ws: seq<World>, ops: seq<Op>, n: nat)
    requires Run(ws, ops) && n < |ws|
    requires forall i :: 0 <= i < n ==> Saves(ops[i])
    ensures AllHeld(ws[n].feeds, ws[n].file, ws[n].net)
    ensures forall id :: FileHolds(ws[n], id)
  {
    hide AfterTick;
    if 0 < n {
      SavedRunHolds(ws, ops, n - 1);
      var w, op := ws[n - 1], ops[n - 1];
      RunIsGood(ws, ops, n - 1);
      if op.DoTick? {
        TickKeepsHeld(LocalOf(w, op.id), op.c, op.id, Met(w, op.id, op.e));
      }
    }
  }

  /** Over such a run, restarts included, the remembered round only grows while chain and schedule start stand. */
  lemma SavedRoundsIncrease(ws: seq<World>, ops: seq<Op>, id: nat, i: nat, j: nat)
    requires Run(ws, ops) && i <= j < |ws| && Lookup(ws[i].feeds, id).hasRound
    requires forall k :: 0 <= k < j ==> Saves(ops[k])
    requires forall k :: i <= k < j ==> Stays(ws[k], ops[k], id, Lookup(ws[i].feeds, id).startAt)
    ensures MovedOn(ws[i], ws[j], id)
  {
    forall k | i <= k < j
      ensures Steady(ws[k], ops[k], id, Lookup(ws[i].feeds, id).startAt)
    {
      assert Stays(ws[k], ops[k], id, Lookup(ws[i].feeds, id).startAt);
      SavedRunHolds(ws, ops, k);
    }
    RoundsIncrease(ws, ops, id, i, j);
  }

  const MINUTELY: ChainSchedule := S.Schedule(0, 60, 30)

  /** One accepted submission whose record could not be written. */
  const UNSAVED := Env(Some(FeedView(60, "active", 0, MINUTELY, None, 0)), Some(0), true, Some(1),
                       Committed, false, false, false, false)

  /** The condition is needed: after it a restart forgets the round, while the chain still holds the submission. */
  lemma UnsavedRoundIsForgotten()
    ensures var w0 := World("dev", map[], None, map[], map[], map[]);
      var seated := Seated("dev", 7, 0, MINUTELY, -1);
      var tick := DoTick(7, Config(0, 0, 0, false, 0, false), UNSAVED);
      var w1 := Next(w0, seated);
      var w2 := Next(w1, tick);
      var w3 := Next(w2, Restart("dev"));
      && Run([w0, w1, w2, w3], [seated, tick, Restart("dev")])
      && Lookup(w2.feeds, 7).hasRound && Lookup(w2.feeds, 7).lastRound == 1
      && !FileHolds(w2, 7) && !Lookup(w3.feeds, 7).hasRound
      && LogOf(w3, "dev") == [Submission(7, 0, 1, 0, 1)]
  {
    var w0 := World("dev", map[], None, map[], map[], map[]);
    var w1 := Next(w0, Seated("dev", 7, 0, MINUTELY, -1));
    var l := LocalOf(w1, 7);
    var c := Config(0, 0, 0, false, 0, false);
    var f := UNSAVED.feed.value;
    assert f.sched.Current(60) == Some(1) && Admits(w1, 7, f);
    assert Reaches(l, UNSAVED);
    assert InWindow(c, f, 1);
    var u := Updated(l, 7, UNSAVED);
    assert Submitting(u, c, 7, f, 1, UNSAVED) == Submitted(u, c, 7, f, 1, UNSAVED);
  }
}
