// Runs of the provider agent: ticks of any feeds with any view, transaction
// and save outcomes, crashes and restarts on any chain, seatings in any slot,
// schedule changes.
module AgentRuns {
  import opened Basics
  import opened AgentState
  import opened Agent
  import S = Schedule

  // ---- what holds of one feed runner's surroundings

  predicate Holds(log: seq<Submission>, id: nat, startAt: int, round: nat) {
    exists i :: 0 <= i < |log| && log[i].feed == id && log[i].startAt == startAt && log[i].round == round
  }

  predicate HoldsValue(log: seq<Submission>, id: nat, startAt: int, round: nat, value: int) {
    exists i :: 0 <= i < |log| && log[i].feed == id && log[i].startAt == startAt && log[i].round == round
                && log[i].value == value
  }

  /** What is remembered of a feed is on chain: the last round, and the last value in its round. */
  predicate Backed(fs: FeedState, id: nat, log: seq<Submission>) {
    && (fs.hasRound ==> Holds(log, id, fs.startAt, fs.lastRound))
    && (fs.hasValue ==> HoldsValue(log, id, fs.startAt, fs.valueRound, fs.lastValue))
  }

  ghost predicate AllBacked(feeds: Feeds, log: seq<Submission>) {
    forall id :: id in feeds ==> Backed(feeds[id], id, log)
  }

  /** At most one accepted submission per feed, schedule start, round and slot. */
  predicate OncePerSlot(log: seq<Submission>) {
    forall i, j :: 0 <= i < j < |log| ==> !(SameRound(log[i], log[j]) && log[i].slot == log[j].slot)
  }

  /** At most one accepted submission per feed, schedule start and round, whatever the slots. */
  predicate OncePerRound(log: seq<Submission>) {
    forall i, j :: 0 <= i < j < |log| ==> !SameRound(log[i], log[j])
  }

  predicate SameRound(a: Submission, b: Submission) {
    a.feed == b.feed && a.startAt == b.startAt && a.round == b.round
  }

  ghost predicate Good(l: Local) {
    && OncePerSlot(l.log)
    && AllBacked(l.feeds, l.log)
    && (l.file.Some? && l.file.value.net == l.net ==> AllBacked(l.file.value.feeds, l.log))
  }

  /** The log grows at its end, and a file only changes into one of this chain. */
  ghost predicate Extends(l: Local, l': Local) {
    && l.net == l'.net && l.log <= l'.log
    && (l'.file == l.file || (l'.file.Some? && l'.file.value.net == l.net))
  }

  lemma BackedLonger(fs: FeedState, id: nat, log: seq<Submission>, log': seq<Submission>)
    requires Backed(fs, id, log) && log <= log'
    ensures Backed(fs, id, log')
  {
    if fs.hasRound {
      var i :| 0 <= i < |log| && log[i].feed == id && log[i].startAt == fs.startAt && log[i].round == fs.lastRound;
      assert log'[i] == log[i];
    }
    if fs.hasValue {
      var i :| 0 <= i < |log| && log[i].feed == id && log[i].startAt == fs.startAt
               && log[i].round == fs.valueRound && log[i].value == fs.lastValue;
      assert log'[i] == log[i];
    }
  }

  lemma AllBackedLonger(feeds: Feeds, log: seq<Submission>, log': seq<Submission>)
    requires AllBacked(feeds, log) && log <= log'
    ensures AllBacked(feeds, log')
  {
    forall id | id in feeds
      ensures Backed(feeds[id], id, log')
    {
      BackedLonger(feeds[id], id, log, log');
    }
  }

  /** Changing one feed's state to a backed one keeps the runner's surroundings good, saved or not. */
  lemma RememberKeepsGood(l: Local, id: nat, fs: FeedState, written: bool)
    requires Good(l) && Backed(fs, id, l.log)
    ensures Good(Saved(l.(feeds := l.feeds[id := fs]), written))
    ensures Extends(l, Saved(l.(feeds := l.feeds[id := fs]), written))
  {
  }

  lemma AcceptKeepsGood(l: Local, s: Submission)
    requires Good(l)
    requires !HasSubmitted(l.log, s.feed, s.startAt, s.round, s.slot)
    ensures Good(l.(log := l.log + [s]))
  {
    AllBackedLonger(l.feeds, l.log, l.log + [s]);
    if l.file.Some? && l.file.value.net == l.net {
      AllBackedLonger(l.file.value.feeds, l.log, l.log + [s]);
    }
  }

  lemma SubmittedKeepsGood(l: Local, c: Config, id: nat, f: FeedView, cur: nat, e: Env)
    requires Good(l)
    requires !HasSubmitted(l.log, id, f.sched.startAt, cur, f.slot)
    requires Lookup(l.feeds, id).startAt == f.sched.startAt
    ensures Good(Submitted(l, c, id, f, cur, e)) && Extends(l, Submitted(l, c, id, f, cur, e))
  {
    var st := Lookup(l.feeds, id);
    if e.fetched.Some? && Sane(c, st, f, e.fetched.value) && !e.fate.NotCommitted? {
      var s := Submission(id, f.sched.startAt, cur, f.slot, e.fetched.value);
      AcceptKeepsGood(l, s);
      var l1 := l.(log := l.log + [s]);
      if e.fate.Committed? {
        var fs := st.(hasRound := true, lastRound := cur, hasValue := true, lastValue := s.value, valueRound := cur);
        assert l1.log[|l.log|] == s;
        RememberKeepsGood(l1, id, fs, e.saves);
      }
    }
  }

  lemma SubmittingKeepsGood(l: Local, c: Config, id: nat, f: FeedView, cur: nat, e: Env)
    requires Good(l) && id in l.feeds
    requires l.feeds[id].startAt == f.sched.startAt
    ensures Good(Submitting(l, c, id, f, cur, e)) && Extends(l, Submitting(l, c, id, f, cur, e))
  {
    var st := l.feeds[id];
    if !(Remembers(st, cur) || !InWindow(c, f, cur) || !e.roundReadable) {
      if HasSubmitted(l.log, id, f.sched.startAt, cur, f.slot) {
        RememberKeepsGood(l, id, st.(hasRound := true, lastRound := cur), e.saves);
      } else {
        SubmittedKeepsGood(l, c, id, f, cur, e);
      }
    }
  }

  lemma TickKeepsGood(l: Local, c: Config, id: nat, e: Env)
    requires Good(l)
    ensures Good(AfterTick(l, c, id, e)) && Extends(l, AfterTick(l, c, id, e))
  {
    if Reaches(l, e) {
      var f := e.feed.value;
      var cur := f.sched.Current(f.now).value;
      var u := Updated(l, id, e);
      RememberKeepsGood(l, id, Rescheduled(Lookup(l.feeds, id), f.sched.startAt), false);
      assert Good(u) && Extends(l, u);
      if u.obliged.value <= cur {
        SubmittingKeepsGood(u, c, id, f, cur, e);
        var s := Submitting(u, c, id, f, cur, e);
        var fs := Lookup(s.feeds, id).(lastClaimAt := f.now);
        assert Backed(Lookup(s.feeds, id), id, s.log);
        RememberKeepsGood(s, id, fs, e.savesClaim);
      }
    }
  }

  // ---- when a tick submits

  // Helpers that read the submission off AfterTick, for the theorems below.

  /** The conditions under which a tick's submission is accepted. */
  predicate WillSubmit(l: Local, c: Config, id: nat, e: Env) {
    && Reaches(l, e) && e.roundReadable && e.fetched.Some? && !e.fate.NotCommitted?
    && var f := e.feed.value;
       var cur := f.sched.Current(f.now).value;
       var st := Rescheduled(Lookup(l.feeds, id), f.sched.startAt);
       && ObligedFrom(l, e) <= cur
       && !Remembers(st, cur) && InWindow(c, f, cur)
       && !HasSubmitted(l.log, id, f.sched.startAt, cur, f.slot)
       && Sane(c, st, f, e.fetched.value)
  }

  /** A tick adds one submission, to the current round, exactly under those conditions, and otherwise none. */
  lemma TickSubmitsExactly(l: Local, c: Config, id: nat, e: Env)
    ensures var log := AfterTick(l, c, id, e).log;
      if WillSubmit(l, c, id, e) then
        var f := e.feed.value;
        log == l.log + [Submission(id, f.sched.startAt, f.sched.Current(f.now).value, f.slot, e.fetched.value)]
      else log == l.log
  {
  }

  // ---- the same, from the agent's rules

  /**
   * The clock allows a submission to round r: the jitter has passed since the
   * round opened, and the timeout and two seconds are left before it closes.
   */
  predicate InTime(c: Config, f: FeedView, r: nat) {
    && (f.sched.interval == 0 ==> r == 0)
    && f.sched.startAt + r * f.sched.interval + c.jitter <= f.now
    && f.now + c.timeout + 2 < f.sched.startAt + r * f.sched.interval + f.sched.submitWindow
  }

  /** The feed is served, and the provider seated and obliged in round r, as far as the agent knows or reads. */
  predicate IsDue(l: Local, e: Env, r: nat) {
    && e.feed.Some? && 0 <= e.feed.value.slot && e.feed.value.sched.Valid()
    && (e.feed.value.status == "active" || e.feed.value.status == "unfunded")
    && if l.obliged.Some? && l.slot == e.feed.value.slot then l.obliged.value <= r
       else e.obligedFrom.Some? && e.obligedFrom.value <= r
  }

  /** What the agent remembers of the feed under the view's schedule. */
  predicate RemembersRound(l: Local, id: nat, f: FeedView, r: nat) {
    var fs := Lookup(l.feeds, id);
    fs.startAt == f.sched.startAt && fs.hasRound && r <= fs.lastRound
  }

  predicate RemembersValue(l: Local, id: nat, f: FeedView) {
    Lookup(l.feeds, id).startAt == f.sched.startAt && Lookup(l.feeds, id).hasValue
  }

  /** The value is near enough to the latest of the public value and the agent's own, if there is one to compare. */
  predicate IsChecked(l: Local, c: Config, id: nat, f: FeedView, v: int) {
    var fs := Lookup(l.feeds, id);
    c.numeric && 0 < c.sanityBps && !c.force ==>
      if f.value.Some? && (RemembersValue(l, id, f) ==> fs.valueRound <= f.lastRound)
      then Abs(v - f.value.value) * 10_000 <= Abs(f.value.value) * c.sanityBps
      else RemembersValue(l, id, f) ==> Abs(v - fs.lastValue) * 10_000 <= Abs(fs.lastValue) * c.sanityBps
  }

  /** All that the agent asks for before it sends to round r. */
  predicate MaySend(l: Local, c: Config, id: nat, e: Env, r: nat) {
    && IsDue(l, e, r) && InTime(c, e.feed.value, r)
    && !RemembersRound(l, id, e.feed.value, r)
    && e.roundReadable && !HasSubmitted(l.log, id, e.feed.value.sched.startAt, r, e.feed.value.slot)
    && e.fetched.Some? && IsChecked(l, c, id, e.feed.value, e.fetched.value)
  }

  /** In time for a round means that it is the current one, and open. */
  lemma InTimeIsCurrent(c: Config, f: FeedView, r: nat)
    requires f.sched.Valid()
    ensures InTime(c, f, r) <==> f.sched.Current(f.now) == Some(r) && InWindow(c, f, r)
    ensures InTime(c, f, r) ==> f.sched.IsOpen(r, f.now)
  {
    if InTime(c, f, r) {
      S.OpenIsCurrent(f.sched, f.now, r);
    }
  }

  lemma CheckedIsSane(l: Local, c: Config, id: nat, f: FeedView, v: int)
    ensures IsChecked(l, c, id, f, v) <==> Sane(c, Rescheduled(Lookup(l.feeds, id), f.sched.startAt), f, v)
  {
  }

  lemma MaySendIsWillSubmit(l: Local, c: Config, id: nat, e: Env, r: nat)
    ensures MaySend(l, c, id, e, r) && !e.fate.NotCommitted?
        <==> WillSubmit(l, c, id, e) && e.feed.value.sched.Current(e.feed.value.now) == Some(r)
  {
    hide InTime, IsChecked, Sane, HasSubmitted, InWindow;
    if e.feed.Some? && e.feed.value.sched.Valid() {
      InTimeIsCurrent(c, e.feed.value, r);
      if e.fetched.Some? {
        CheckedIsSane(l, c, id, e.feed.value, e.fetched.value);
      }
    }
  }

  /** A tick adds its submission to round r exactly if it may send there and the transaction lands. */
  lemma TickSendsExactly(l: Local, c: Config, id: nat, e: Env)
    ensures var log := AfterTick(l, c, id, e).log;
      && (log == l.log || (e.feed.Some? && e.fetched.Some? && log == l.log + [log[|l.log|]]))
      && forall r: nat :: MaySend(l, c, id, e, r) && !e.fate.NotCommitted?
           <==> && e.feed.Some? && e.fetched.Some?
                && log == l.log + [Submission(id, e.feed.value.sched.startAt, r, e.feed.value.slot, e.fetched.value)]
  {
    hide AfterTick, MaySend;
    TickSubmitsExactly(l, c, id, e);
    forall r: nat
      ensures MaySend(l, c, id, e, r) && !e.fate.NotCommitted?
          <==> WillSubmit(l, c, id, e) && e.feed.value.sched.Current(e.feed.value.now) == Some(r)
    {
      MaySendIsWillSubmit(l, c, id, e, r);
    }
  }

  /** The round's mask already holds the agent's submission, and the agent does not know. */
  predicate Learns(l: Local, c: Config, id: nat, e: Env, r: nat) {
    && IsDue(l, e, r) && InTime(c, e.feed.value, r)
    && !RemembersRound(l, id, e.feed.value, r)
    && e.roundReadable && HasSubmitted(l.log, id, e.feed.value.sched.startAt, r, e.feed.value.slot)
  }

  /** The two records agree but for the time of the last claim. */
  predicate SameButClaim(fs: FeedState, fs': FeedState) {
    fs' == fs.(lastClaimAt := fs'.lastClaimAt)
  }

  lemma SubmitPath(l: Local, c: Config, id: nat, e: Env)
    requires WillSubmit(l, c, id, e)
    ensures var f, u := e.feed.value, Updated(l, id, e);
      AfterTick(l, c, id, e)
      == Claiming(Submitted(u, c, id, f, f.sched.Current(f.now).value, e), c, id, Lookup(u.feeds, id), f.now, e)
  {
    hide Submitted, Claiming;
  }

  /** A submission known to have landed is remembered with its round and value, and saved if the file is written. */
  lemma TickRemembers(l: Local, c: Config, id: nat, e: Env, r: nat)
    requires MaySend(l, c, id, e, r) && e.fate.Committed?
    ensures var l', start, v := AfterTick(l, c, id, e), e.feed.value.sched.startAt, e.fetched.value;
      var sent := FeedState(start, true, r, true, v, r, 0);
      && SameButClaim(sent, Lookup(l'.feeds, id))
      && (e.saves ==> l'.file.Some? && l'.file.value.net == l.net
                      && SameButClaim(sent, Lookup(l'.file.value.feeds, id)))
  {
    hide AfterTick, InWindow;
    MaySendIsWillSubmit(l, c, id, e, r);
    SubmitPath(l, c, id, e);
    hide MaySend, HasSubmitted;
  }

  /** A submission found on chain is remembered with its round. */
  lemma TickLearns(l: Local, c: Config, id: nat, e: Env, r: nat)
    requires Learns(l, c, id, e, r)
    ensures var fs := Rescheduled(Lookup(l.feeds, id), e.feed.value.sched.startAt);
      SameButClaim(fs.(hasRound := true, lastRound := r), Lookup(AfterTick(l, c, id, e).feeds, id))
  {
    hide InTime, IsChecked, Sane, HasSubmitted, InWindow;
    InTimeIsCurrent(c, e.feed.value, r);
  }

  /** Whatever else happens, a record is kept or, under a new schedule start, emptied. */
  lemma TickKeeps(l: Local, c: Config, id: nat, e: Env)
    requires !e.fate.Committed? || forall r: nat :: !MaySend(l, c, id, e, r)
    requires forall r: nat :: !Learns(l, c, id, e, r)
    ensures var fs, fs' := Lookup(l.feeds, id), Lookup(AfterTick(l, c, id, e).feeds, id);
      || SameButClaim(fs, fs')
      || (e.feed.Some? && e.feed.value.sched.startAt != fs.startAt
          && SameButClaim(FeedState(e.feed.value.sched.startAt, false, 0, false, 0, 0, 0), fs'))
  {
    hide InTime, IsChecked, Sane, HasSubmitted, InWindow;
    if Reaches(l, e) {
      var f := e.feed.value;
      var cur := f.sched.Current(f.now).value;
      assert !Learns(l, c, id, e, cur);
      InTimeIsCurrent(c, f, cur);
      if e.fetched.Some? {
        CheckedIsSane(l, c, id, f, e.fetched.value);
      }
      assert !e.fate.Committed? || !MaySend(l, c, id, e, cur);
    }
  }

  /** The claim step is passed when due and gone through, and then not due again for the cadence. */
  lemma TickClaimsExactly(l: Local, c: Config, id: nat, e: Env)
    ensures var was, now := Lookup(l.feeds, id).lastClaimAt, Lookup(AfterTick(l, c, id, e).feeds, id).lastClaimAt;
      if && e.feed.Some? && e.feed.value.sched.Valid() && e.feed.value.sched.Current(e.feed.value.now).Some?
         && IsDue(l, e, e.feed.value.sched.Current(e.feed.value.now).value)
         && 0 < c.claimEvery <= e.feed.value.now - was && e.claimed
      then now == e.feed.value.now else now == was
  {
    hide InWindow, Sane, HasSubmitted;
  }

  lemma OnlyCurrent(l: Local, c: Config, id: nat, e: Env)
    requires e.feed.Some? && e.feed.value.sched.Valid()
    ensures var cur := e.feed.value.sched.Current(e.feed.value.now);
      (exists r: nat :: MaySend(l, c, id, e, r)) <==> cur.Some? && MaySend(l, c, id, e, cur.value)
  {
    hide InTime, IsChecked, HasSubmitted, InWindow;
    forall r: nat | MaySend(l, c, id, e, r)
      ensures e.feed.value.sched.Current(e.feed.value.now) == Some(r)
    {
      InTimeIsCurrent(c, e.feed.value, r);
    }
  }

  lemma SubmittingObliges(l: Local, c: Config, id: nat, f: FeedView, cur: nat, e: Env, st: FeedState, now: int)
    ensures var l' := Claiming(Submitting(l, c, id, f, cur, e), c, id, st, now, e); var fs := Lookup(l.feeds, id);
      && l'.slot == l.slot
      && l'.obliged == if && !Remembers(fs, cur) && InWindow(c, f, cur) && e.roundReadable
                          && !HasSubmitted(l.log, id, f.sched.startAt, cur, f.slot)
                          && e.fetched.Some? && Sane(c, fs, f, e.fetched.value)
                          && !e.fate.Committed? && e.tooEarly
                       then None else l.obliged
  {
    hide InWindow, Sane, HasSubmitted;
  }

  /** The runner knows from which round it is obliged in its slot, until a transaction fails as too early. */
  lemma TickObliges(l: Local, c: Config, id: nat, e: Env)
    ensures var l', known := AfterTick(l, c, id, e), e.feed.Some? && l.obliged.Some? && l.slot == e.feed.value.slot;
      if && e.feed.Some? && 0 <= e.feed.value.slot
         && (e.feed.value.status == "active" || e.feed.value.status == "unfunded")
         && e.feed.value.sched.Valid() && e.feed.value.sched.startAt <= e.feed.value.now
         && (known || e.obligedFrom.Some?)
      then
        && l'.slot == e.feed.value.slot
        && l'.obliged == if (exists r: nat :: MaySend(l, c, id, e, r)) && !e.fate.Committed? && e.tooEarly then None
                         else if known then l.obliged else e.obligedFrom
      else l'.slot == l.slot && l'.obliged == l.obliged
  {
    hide InTime, IsChecked, Sane, HasSubmitted, InWindow, Submitting, Claiming;
    if Reaches(l, e) {
      var f := e.feed.value;
      var cur := f.sched.Current(f.now).value;
      var u := Updated(l, id, e);
      SubmittingObliges(u, c, id, f, cur, e, Lookup(u.feeds, id), f.now);
      OnlyCurrent(l, c, id, e);
      InTimeIsCurrent(c, f, cur);
      if e.fetched.Some? {
        CheckedIsSane(l, c, id, f, e.fetched.value);
      }
    }
  }

  // ---- the provider's seat on chain

  /** A schedule the chain accepts. */
  type ChainSchedule = s: S.Schedule | s.Valid() witness S.Schedule(0, 0, 1)

  /** The provider's slot in a feed and the first round it owes (and may serve) from there. */
  datatype Seat = Seat(slot: int, owed: nat)

  /** What a provider seated at time t owes first (obligedFrom of providers.gno). */
  function SeatedFrom(s: ChainSchedule, t: int): nat {
    match s.Current(t)
    case None => 0
    case Some(cur) => if s.IsOneOff() then 1 else cur + 1
  }

  /** Any round that was current before a provider was seated precedes what it owes. */
  lemma NewSeatOwesLater(s: ChainSchedule, t: int, seated: int, r: nat)
    requires s.Current(t) == Some(r) && t <= seated
    ensures r < SeatedFrom(s, seated)
  {
    S.CurrentMonotone(s, t, seated);
  }

  // ---- remembered rounds grow

  predicate Grown(fs: FeedState, fs': FeedState) {
    fs'.hasRound && fs'.startAt == fs.startAt && fs.lastRound <= fs'.lastRound
  }

  lemma SubmittingGrows(l: Local, c: Config, id: nat, f: FeedView, cur: nat, e: Env)
    requires Lookup(l.feeds, id).hasRound
    ensures Grown(Lookup(l.feeds, id), Lookup(Submitting(l, c, id, f, cur, e).feeds, id))
  {
  }

  /** Under an unchanged schedule start a tick never forgets a round and replaces it by a later one only. */
  lemma LastRoundGrows(l: Local, c: Config, id: nat, e: Env)
    requires Lookup(l.feeds, id).hasRound
    requires e.feed.Some? ==> e.feed.value.sched.startAt == Lookup(l.feeds, id).startAt
    ensures Grown(Lookup(l.feeds, id), Lookup(AfterTick(l, c, id, e).feeds, id))
  {
    hide Submitting;
    if Reaches(l, e) {
      var f := e.feed.value;
      SubmittingGrows(Updated(l, id, e), c, id, f, f.sched.Current(f.now).value, e);
    }
  }

  /** It submits only beyond a remembered round. */
  lemma SubmitsBeyond(l: Local, c: Config, id: nat, e: Env)
    requires Lookup(l.feeds, id).hasRound
    requires e.feed.Some? ==> e.feed.value.sched.startAt == Lookup(l.feeds, id).startAt
    ensures var log := AfterTick(l, c, id, e).log;
      |log| <= |l.log| + 1
      && (|l.log| < |log| ==> log[|l.log|].feed == id && Lookup(l.feeds, id).lastRound < log[|l.log|].round)
    ensures l.log <= AfterTick(l, c, id, e).log
  {
    hide AfterTick;
    TickSubmitsExactly(l, c, id, e);
  }

  /** Memory and file know of the feed what they knew, or the file what the memory knew. */
  predicate SameOf(l: Local, l': Local, id: nat) {
    && l'.net == l.net && Lookup(l'.feeds, id) == Lookup(l.feeds, id)
    && (l'.file == l.file
        || (l'.file.Some? && l'.file.value.net == l.net && Lookup(l'.file.value.feeds, id) == Lookup(l.feeds, id)))
  }

  lemma SubmittingLeavesOthers(l: Local, c: Config, id: nat, f: FeedView, cur: nat, e: Env, other: nat)
    requires other != id
    ensures SameOf(l, Submitting(l, c, id, f, cur, e), other)
  {
  }

  lemma TickLeavesOthers(l: Local, c: Config, id: nat, e: Env, other: nat)
    requires other != id
    ensures SameOf(l, AfterTick(l, c, id, e), other)
  {
    if Reaches(l, e) {
      var f := e.feed.value;
      var cur := f.sched.Current(f.now).value;
      var u := Updated(l, id, e);
      assert SameOf(l, u, other) && u.file == l.file;
      if u.obliged.value <= cur {
        SubmittingLeavesOthers(u, c, id, f, cur, e, other);
        var l1 := Submitting(u, c, id, f, cur, e);
        assert SameOf(l1, Claiming(l1, c, id, Lookup(u.feeds, id), f.now, e), other);
      }
    }
  }

  // ---- runs

  datatype Runner = Runner(obliged: Option<nat>, slot: int)

  /** The process, its file, and per chain the provider's accepted submissions and its seats. */
  datatype World = World(net: string, feeds: Feeds, file: Option<File>, runners: map<nat, Runner>,
                         logs: map<string, seq<Submission>>, seats: map<(string, nat), Seat>)

  datatype Op =
    | DoTick(id: nat, c: Config, e: Env)
    | Restart(net: string)     // a crash, then a start from the file on chain net
    | Seated(chain: string, feed: nat, slot: int, sched: ChainSchedule, now: int)
      // the provider registers, returns from jail, or keeps its slot when the feed reopens

  function LogOf(w: World, net: string): seq<Submission> {
    if net in w.logs then w.logs[net] else []
  }

  function LocalOf(w: World, id: nat): Local {
    var r := if id in w.runners then w.runners[id] else Runner(None, 0);
    Local(w.feeds, w.file, w.net, LogOf(w, w.net), r.obliged, r.slot)
  }

  /** The chain takes a submission of a seated provider to a round it owes (rounds.gno). */
  predicate Admits(w: World, id: nat, f: FeedView) {
    && f.sched.Valid() && f.sched.Current(f.now).Some? && (w.net, id) in w.seats
    && var seat := w.seats[(w.net, id)];
       f.slot == seat.slot && seat.owed <= f.sched.Current(f.now).value
  }

  /** What a tick meets: the chain refuses a transaction it does not admit. */
  function Met(w: World, id: nat, e: Env): Env {
    if e.feed.Some? && Admits(w, id, e.feed.value) then e else e.(fate := NotCommitted)
  }

  function Next(w: World, op: Op): World {
    match op
    case DoTick(id, c, e) =>
      var l := AfterTick(LocalOf(w, id), c, id, Met(w, id, e));
      World(w.net, l.feeds, l.file, w.runners[id := Runner(l.obliged, l.slot)], w.logs[w.net := l.log], w.seats)
    case Restart(net) =>
      World(net, Loaded(w.file, net), w.file, map[], w.logs, w.seats)
    case Seated(chain, feed, slot, sched, now) =>
      w.(seats := w.seats[(chain, feed) := Seat(slot, SeatedFrom(sched, now))])
  }

  ghost predicate GoodWorld(w: World) {
    && w.net != ""
    && (forall net :: net in w.logs ==> OncePerSlot(w.logs[net]))
    && AllBacked(w.feeds, LogOf(w, w.net))
    && (w.file.Some? ==> w.file.value.net != "" && AllBacked(w.file.value.feeds, LogOf(w, w.file.value.net)))
  }

  lemma StepKeepsGood(w: World, op: Op)
    requires GoodWorld(w) && (op.Restart? ==> op.net != "")
    ensures GoodWorld(Next(w, op))
  {
    hide AfterTick;
    if op.DoTick? {
      TickKeepsGood(LocalOf(w, op.id), op.c, op.id, Met(w, op.id, op.e));
    }
  }

  /** From a process without a file, on a chain that has seen nothing of the provider; every chain has an id. */
  ghost predicate Run(ws: seq<World>, ops: seq<Op>) {
    && |ws| == |ops| + 1
    && ws[0].net != "" && ws[0].feeds == map[] && ws[0].file == None && ws[0].logs == map[] && ws[0].seats == map[]
    && forall i :: 0 <= i < |ops| ==> (ops[i].Restart? ==> ops[i].net != "") && ws[i + 1] == Next(ws[i], ops[i])
  }

  lemma {:induction false} RunIsGood(ws: seq<World>, ops: seq<Op>, n: nat)
    requires Run(ws, ops) && n < |ws|
    ensures GoodWorld(ws[n])
  {
    if 0 < n {
      RunIsGood(ws, ops, n - 1);
      StepKeepsGood(ws[n - 1], ops[n - 1]);
    }
  }

  /**
   * Over every run: never two accepted submissions for one schedule start,
   * round and slot, and whatever a process or a file remembers of a round is
   * on its chain.
   */
  lemma NeverSubmitsTwice(ws: seq<World>, ops: seq<Op>, n: nat)
    requires Run(ws, ops) && n < |ws|
    ensures forall net :: net in ws[n].logs ==> OncePerSlot(ws[n].logs[net])
    ensures forall id :: id in ws[n].feeds && ws[n].feeds[id].hasRound ==>
              Holds(LogOf(ws[n], ws[n].net), id, ws[n].feeds[id].startAt, ws[n].feeds[id].lastRound)
    ensures ws[n].file.Some? ==>
              forall id :: id in ws[n].file.value.feeds && ws[n].file.value.feeds[id].hasRound ==>
                Holds(LogOf(ws[n], ws[n].file.value.net), id, ws[n].file.value.feeds[id].startAt,
                      ws[n].file.value.feeds[id].lastRound)
  {
    RunIsGood(ws, ops, n);
    assert forall id :: id in ws[n].feeds ==> Backed(ws[n].feeds[id], id, LogOf(ws[n], ws[n].net));
  }
}
