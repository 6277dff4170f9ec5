// agent/agent.go: one tick of a feed runner, from the views it reads to the
// submission it may send, and runs of ticks with errors, crashes, restarts and
// schedule changes.
module Agent {
  import opened Basics
  import opened AgentState
  import S = Schedule
  import Value

  /** What the feed view says; slot is the provider's slot or -1. */
  datatype FeedView = FeedView(now: int, status: string, slot: int, sched: S.Schedule,
                               value: Option<int>, lastRound: nat)

  /** The feed's configuration. */
  datatype Config = Config(jitter: nat, timeout: nat, claimEvery: nat, numeric: bool, sanityBps: int, force: bool)

  datatype TxFate = NotCommitted | CommittedWithError | Committed

  /** Everything a tick learns from outside; the round's submissions are read off the chain itself. */
  datatype Env = Env(
    feed: Option<FeedView>,      // None when the view cannot be read
    obligedFrom: Option<nat>,    // of the provider record
    roundReadable: bool,
    fetched: Option<int>,        // the value in feed units, None on any failure or refusal before the sanity check
    fate: TxFate,
    tooEarly: bool,              // the failed transaction complained about obligations
    claimed: bool,               // the claim step, when due, went through
    saves: bool,
    savesClaim: bool)

  datatype Submission = Submission(feed: nat, startAt: int, round: nat, slot: int, value: int)

  /** The round's mask has the slot's bit. */
  predicate HasSubmitted(log: seq<Submission>, feed: nat, startAt: int, round: nat, slot: int) {
    exists i :: 0 <= i < |log| && log[i].feed == feed && log[i].startAt == startAt && log[i].round == round
                && log[i].slot == slot
  }

  // ---- the sanity check

  /** The latest of the public value and the agent's own last submission. */
  function SanityRef(st: FeedState, f: FeedView): Option<int> {
    if f.value.Some? && (!st.hasValue || f.lastRound >= st.valueRound) then f.value
    else if st.hasValue then Some(st.lastValue)
    else None
  }

  predicate Sane(c: Config, st: FeedState, f: FeedView, v: int) {
    c.numeric && c.sanityBps > 0 && SanityRef(st, f).Some?
    ==> Value.WithinBps(v, SanityRef(st, f).value, c.sanityBps) || c.force
  }

  // ---- one tick, as a function

  /** What one tick of feed id can change. */
  datatype Local = Local(feeds: Feeds, file: Option<File>, net: string, log: seq<Submission>,
                         obliged: Option<nat>, slot: int)

  function Rescheduled(fs: FeedState, startAt: int): FeedState {
    if fs.startAt == startAt then fs else UNKNOWN.(startAt := startAt, lastClaimAt := fs.lastClaimAt)
  }

  function Saved(l: Local, written: bool): Local {
    if written then l.(file := Some(File(l.net, l.feeds))) else l
  }

  predicate Serving(status: string) {
    status == "active" || status == "unfunded"
  }

  /** The views carry the tick past the schedule update, at round cur with the given obligation. */
  predicate Reaches(l: Local, e: Env) {
    && e.feed.Some? && Serving(e.feed.value.status) && 0 <= e.feed.value.slot
    && e.feed.value.sched.Valid() && e.feed.value.sched.Current(e.feed.value.now).Some?
    && (NeedsRecord(l, e.feed.value) ==> e.obligedFrom.Some?)
  }

  predicate NeedsRecord(l: Local, f: FeedView) {
    l.obliged.None? || l.slot != f.slot
  }

  function ObligedFrom(l: Local, e: Env): nat
    requires Reaches(l, e)
  {
    if NeedsRecord(l, e.feed.value) then e.obligedFrom.value else l.obliged.value
  }

  predicate Remembers(fs: FeedState, round: nat) {
    fs.hasRound && round <= fs.lastRound
  }

  /** Now is far enough into the round and far enough from its end. */
  predicate InWindow(c: Config, f: FeedView, cur: nat) {
    f.sched.OpenAt(cur) + c.jitter <= f.now < f.sched.CloseAt(cur) - (c.timeout + 2)
  }

  /** The state after the schedule update. */
  function Updated(l: Local, id: nat, e: Env): Local
    requires Reaches(l, e)
  {
    l.(obliged := Some(ObligedFrom(l, e)), slot := e.feed.value.slot,
       feeds := l.feeds[id := Rescheduled(Lookup(l.feeds, id), e.feed.value.sched.startAt)])
  }

  function Submitted(l: Local, c: Config, id: nat, f: FeedView, cur: nat, e: Env): Local {
    var st := Lookup(l.feeds, id);
    if e.fetched.None? || !Sane(c, st, f, e.fetched.value) then l
    else
      var v := e.fetched.value;
      var log := l.log + [Submission(id, f.sched.startAt, cur, f.slot, v)];
      match e.fate
      case NotCommitted => if e.tooEarly then l.(obliged := None) else l
      case CommittedWithError => if e.tooEarly then l.(log := log, obliged := None) else l.(log := log)
      case Committed =>
        var fs := st.(hasRound := true, lastRound := cur, hasValue := true, lastValue := v, valueRound := cur);
        Saved(l.(log := log, feeds := l.feeds[id := fs]), e.saves)
  }

  function Submitting(l: Local, c: Config, id: nat, f: FeedView, cur: nat, e: Env): Local {
    var st := Lookup(l.feeds, id);
    if Remembers(st, cur) || !InWindow(c, f, cur) || !e.roundReadable then l
    else if HasSubmitted(l.log, id, f.sched.startAt, cur, f.slot) then
      Saved(l.(feeds := l.feeds[id := st.(hasRound := true, lastRound := cur)]), e.saves)
    else Submitted(l, c, id, f, cur, e)
  }

  function Claiming(l: Local, c: Config, id: nat, st: FeedState, now: int, e: Env): Local {
    if 0 < c.claimEvery && c.claimEvery <= now - st.lastClaimAt && e.claimed then
      Saved(l.(feeds := l.feeds[id := Lookup(l.feeds, id).(lastClaimAt := now)]), e.savesClaim)
    else l
  }

  function AfterTick(l: Local, c: Config, id: nat, e: Env): Local {
    if !Reaches(l, e) then l
    else
      var f := e.feed.value;
      var cur := f.sched.Current(f.now).value;
      var u := Updated(l, id, e);
      if cur < u.obliged.value then u
      else Claiming(Submitting(u, c, id, f, cur, e), c, id, Lookup(u.feeds, id), f.now, e)
  }

  // ---- the runner

  /** The accepted submissions of this provider, as the chain holds them. */
  class Chain {
    var log: seq<Submission>

    method Submit(s: Submission, fate: TxFate) returns (failed: bool)
      modifies this
      ensures log == if fate.NotCommitted? then old(log) else old(log) + [s]
      ensures failed <==> !fate.Committed?
    {
      if !fate.NotCommitted? {
        log := log + [s];
      }
      failed := !fate.Committed?;
    }
  }

  class FeedRunner {
    const id: nat
    const c: Config
    const state: State
    const chain: Chain
    var obliged: Option<nat>
    var slot: int

    constructor (id: nat, c: Config, state: State, chain: Chain)
      ensures this.id == id && this.c == c && this.state == state && this.chain == chain
      ensures obliged == None
    {
      this.id, this.c, this.state, this.chain := id, c, state, chain;
      obliged, slot := None, 0;
    }

    function View(): Local
      reads this, state, chain
    {
      Local(state.feeds, state.file, state.net, chain.log, obliged, slot)
    }

    /** Fetches, validates and broadcasts the round's value. */
    method Submit(f: FeedView, cur: nat, st: FeedState, e: Env)
      requires st == Lookup(state.feeds, id)
      modifies this, state, chain
      ensures View() == Submitted(old(View()), c, id, f, cur, e)
    {
      hide SanityRef, Value.WithinBps;
      if e.fetched.None? {
        return;
      }
      var value := e.fetched.value;
      if c.numeric && c.sanityBps > 0 {
        var ref := SanityRef(st, f);
        if ref.Some? && !Value.WithinBps(value, ref.value, c.sanityBps) && !c.force {
          return;
        }
      }
      var failed := chain.Submit(Submission(id, f.sched.startAt, cur, f.slot, value), e.fate);
      if failed {
        if e.tooEarly {
          obliged := None;
        }
        return;
      }
      state.Update(id, (fs: FeedState) => fs.(hasRound := true, lastRound := cur, hasValue := true, lastValue := value,
                                 valueRound := cur));
      state.Save(e.saves);
    }

    method SubmitIfOpen(f: FeedView, cur: nat, st: FeedState, e: Env)
      requires st == Lookup(state.feeds, id)
      modifies this, state, chain
      ensures View() == Submitting(old(View()), c, id, f, cur, e)
    {
      if !(st.hasRound && st.lastRound >= cur) {
        var openAt, closeAt := f.sched.OpenAt(cur), f.sched.CloseAt(cur);
        var margin := c.timeout + 2;
        if f.now >= openAt + c.jitter && f.now < closeAt - margin {
          if e.roundReadable {
            if HasSubmitted(chain.log, id, f.sched.startAt, cur, f.slot) {
              state.Update(id, (fs: FeedState) => fs.(hasRound := true, lastRound := cur));
              state.Save(e.saves);
            } else {
              Submit(f, cur, st, e);
            }
          }
        }
      }
    }

    method ClaimIfDue(st: FeedState, now: int, e: Env)
      modifies state
      ensures View() == Claiming(old(View()), c, id, st, now, e)
    {
      if c.claimEvery > 0 && now - st.lastClaimAt >= c.claimEvery {
        if e.claimed {
          state.Update(id, (fs: FeedState) => fs.(lastClaimAt := now));
          state.Save(e.savesClaim);
        }
      }
    }

    method Tick(e: Env)
      requires e.feed.Some? ==> e.feed.value.sched.Valid()
      modifies this, state, chain
      ensures View() == AfterTick(old(View()), c, id, e)
    {
      hide Submitting, Claiming;
      if e.feed.None? {
        return;
      }
      var f := e.feed.value;
      if f.status != "active" && f.status != "unfunded" {
        return;
      }
      if f.slot < 0 {
        return;
      }
      var current := f.sched.Current(f.now);
      if current.None? {
        return;
      }
      var cur := current.value;
      if obliged.None? || slot != f.slot {
        if e.obligedFrom.None? {
          return;
        }
        obliged, slot := e.obligedFrom, f.slot;
      }
      var startAt := f.sched.startAt;
      state.Update(id, (fs: FeedState) => if fs.startAt != startAt
                             then FeedState(startAt, false, 0, false, 0, 0, fs.lastClaimAt) else fs);
      var st := state.Snapshot(id);
      assert View() == Updated(old(View()), id, e);
      if cur < obliged.value {
        return;
      }
      SubmitIfOpen(f, cur, st, e);
      ClaimIfDue(st, f.now, e);
    }
  }
}
