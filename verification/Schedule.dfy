// internal/gnochain/schedule.go, its on-chain twin rounds.gno, and the crank
// tests of the agent and the bot.
module Schedule {
  import opened Basics

  datatype Schedule = Schedule(startAt: int, interval: int, submitWindow: int) {
    /** What the chain enforces of every accepted feed. */
    predicate Valid() {
      0 < submitWindow && 0 <= interval && (0 < interval ==> submitWindow <= interval)
    }

    predicate IsOneOff() {
      interval == 0
    }

    function Current(now: int): Option<nat>
      requires Valid()
    {
      if now < startAt then None
      else if IsOneOff() then Some(0)
      else Some((now - startAt) / interval)
    }

    function OpenAt(id: nat): int {
      if IsOneOff() then startAt else startAt + id * interval
    }

    function CloseAt(id: nat): int {
      OpenAt(id) + submitWindow
    }

    predicate IsOpen(id: nat, now: int) {
      OpenAt(id) <= now < CloseAt(id)
    }

    predicate IsClosed(id: nat, now: int) {
      CloseAt(id) <= now
    }

    function Next(lastFinalised: nat, haveLast: bool): nat {
      if !haveLast then 0 else if IsOneOff() then 1 else lastFinalised + 1
    }

    /** The rounds that exist at all: one for a one-off, every number otherwise. */
    predicate Exists(id: nat) {
      IsOneOff() ==> id == 0
    }
  }

  lemma OpenAtStep(s: Schedule, id: nat)
    requires s.Valid() && !s.IsOneOff()
    ensures s.OpenAt(id + 1) == s.OpenAt(id) + s.interval
  {
    assert (id + 1) * s.interval == id * s.interval + s.interval;
  }

  lemma OpenAtMonotone(s: Schedule, a: nat, b: nat)
    requires s.Valid() && a <= b
    ensures s.OpenAt(a) <= s.OpenAt(b)
    ensures a < b && !s.IsOneOff() ==> s.OpenAt(a) + s.interval <= s.OpenAt(b)
  {
    MulLe(a, b, s.interval);
    if a < b {
      MulLe(a + 1, b, s.interval);
      assert (a + 1) * s.interval == a * s.interval + s.interval;
    }
  }

  /** The current round is the one whose interval contains now. */
  lemma CurrentExactly(s: Schedule, now: int, r: nat)
    requires s.Valid() && !s.IsOneOff()
    ensures s.Current(now) == Some(r) <==> s.OpenAt(r) <= now < s.OpenAt(r + 1)
  {
    OpenAtStep(s, r);
    if s.startAt <= now {
      var c := (now - s.startAt) / s.interval;
      assert c * s.interval + (now - s.startAt) % s.interval == now - s.startAt;
      OpenAtStep(s, c);
      assert s.OpenAt(c) <= now < s.OpenAt(c + 1);
      if c < r {
        OpenAtMonotone(s, c + 1, r);
      } else if r < c {
        OpenAtMonotone(s, r + 1, c);
      }
    } else {
      OpenAtMonotone(s, 0, r);
    }
  }

  /** The current round never goes back. */
  lemma CurrentMonotone(s: Schedule, a: int, b: int)
    requires s.Valid() && a <= b && s.Current(a).Some?
    ensures s.Current(b).Some? && s.Current(a).value <= s.Current(b).value
  {
    if !s.IsOneOff() {
      var p, q := (a - s.startAt) / s.interval, (b - s.startAt) / s.interval;
      if q < p {
        CurrentExactly(s, a, p);
        CurrentExactly(s, b, q);
        OpenAtMonotone(s, q + 1, p);
      }
    }
  }

  /** At most one round is open, and it is the current one. */
  lemma OpenIsCurrent(s: Schedule, now: int, r: nat)
    requires s.Valid() && s.Exists(r) && s.IsOpen(r, now)
    ensures s.Current(now) == Some(r)
  {
    if !s.IsOneOff() {
      OpenAtStep(s, r);
      CurrentExactly(s, now, r);
    }
  }

  lemma ClosedMonotone(s: Schedule, r: nat, now: int, r': nat, now': int)
    requires s.Valid() && s.IsClosed(r, now) && r' <= r && now <= now'
    ensures s.IsClosed(r', now')
  {
    OpenAtMonotone(s, r', r);
  }

  // ---- the crank test

  /** The guard both cranks evaluate; cur is the current round. */
  predicate CrankPasses(s: Schedule, lastFinalised: nat, haveLast: bool, cur: nat, now: int, delay: int) {
    var next := s.Next(lastFinalised, haveLast);
    && !(s.IsOneOff() && next != 0)
    && !(next > cur || now < s.CloseAt(next) + delay)
  }

  /** The guard passes exactly when the next unfinalised round exists and closed at least delay ago. */
  lemma CrankPassesExactly(s: Schedule, lastFinalised: nat, haveLast: bool, cur: nat, now: int, delay: nat)
    requires s.Valid() && s.Current(now) == Some(cur)
    ensures CrankPasses(s, lastFinalised, haveLast, cur, now, delay)
        <==> var next := s.Next(lastFinalised, haveLast); s.Exists(next) && s.IsClosed(next, now - delay)
  {
    var next := s.Next(lastFinalised, haveLast);
    if !s.IsOneOff() && s.IsClosed(next, now - delay) {
      CurrentExactly(s, now, cur);
      if cur < next {
        OpenAtMonotone(s, cur + 1, next);
      }
    }
  }

  /** out lists the closed unfinalised rounds in order, as many as limit allows. */
  ghost predicate IsFinalisable(s: Schedule, lastFinalised: nat, haveLast: bool, now: int, limit: int, out: seq<nat>) {
    var next := s.Next(lastFinalised, haveLast);
    && |out| <= Max(limit, 0)
    && (forall i :: 0 <= i < |out| ==> out[i] == next + i && s.Exists(out[i]) && s.IsClosed(out[i], now))
    && (|out| < limit ==> !s.Exists(next + |out|) || !s.IsClosed(next + |out|, now))
  }

  /** The round exists and its window, of submitWindow seconds from its start, has passed. */
  predicate IsOver(s: Schedule, r: nat, now: int) {
    (s.interval == 0 ==> r == 0) && s.startAt + r * s.interval + s.submitWindow <= now
  }

  /** What the list of due rounds holds and leaves out. */
  lemma ListsAllOver(s: Schedule, lastFinalised: nat, haveLast: bool, now: int, limit: int, out: seq<nat>, r: nat)
    requires s.Valid() && IsFinalisable(s, lastFinalised, haveLast, now, limit, out)
    ensures r in out ==> (haveLast ==> lastFinalised < r) && IsOver(s, r, now)
    ensures (haveLast ==> lastFinalised < r) && IsOver(s, r, now) ==> r in out || limit <= |out|
  {
    var next := s.Next(lastFinalised, haveLast);
    if (haveLast ==> lastFinalised < r) && IsOver(s, r, now) && |out| < limit {
      if next + |out| <= r {
        ClosedMonotone(s, r, now, next + |out|, now);
      } else {
        assert out[r - next] == r;
      }
    }
  }

  /** The chain's side (rounds.gno). */
  method Finalisable(s: Schedule, lastFinalised: nat, haveLast: bool, now: int, limit: int)
    returns (out: seq<nat>)
    requires s.Valid()
    ensures forall r :: r in out ==> (haveLast ==> lastFinalised < r) && IsOver(s, r, now)
    ensures forall r: nat :: (haveLast ==> lastFinalised < r) && IsOver(s, r, now) ==> r in out || limit <= |out|
    ensures IsFinalisable(s, lastFinalised, haveLast, now, limit, out)
  {
    out := DueRounds(s, lastFinalised, haveLast, now, limit);
    forall r: nat
      ensures r in out ==> (haveLast ==> lastFinalised < r) && IsOver(s, r, now)
      ensures (haveLast ==> lastFinalised < r) && IsOver(s, r, now) ==> r in out || limit <= |out|
    {
      ListsAllOver(s, lastFinalised, haveLast, now, limit, out, r);
    }
  }

  method DueRounds(s: Schedule, lastFinalised: nat, haveLast: bool, now: int, limit: int) returns (out: seq<nat>)
    requires s.Valid()
    ensures IsFinalisable(s, lastFinalised, haveLast, now, limit, out)
  {
    out := [];
    if limit <= 0 {
      return;
    }
    var next := 0;
    if haveLast {
      if s.IsOneOff() {
        return;
      }
      next := lastFinalised + 1;
    }
    while |out| < limit
      invariant |out| <= limit
      invariant next == s.Next(lastFinalised, haveLast) + |out|
      invariant forall i :: 0 <= i < |out| ==> out[i] == s.Next(lastFinalised, haveLast) + i
      invariant forall i :: 0 <= i < |out| ==> s.Exists(out[i]) && s.IsClosed(out[i], now)
      decreases limit - |out|
    {
      if s.IsOneOff() && next != 0 {
        break;
      }
      if !s.IsClosed(next, now) {
        break;
      }
      out := out + [next];
      next := next + 1;
    }
  }

  /** The off-chain guard (at no delay) passes exactly when the chain has a round to finalise, and names its first. */
  lemma CrankAgreesWithChain(s: Schedule, lastFinalised: nat, haveLast: bool, cur: nat, now: int, limit: pos,
                             out: seq<nat>)
    requires s.Valid() && s.Current(now) == Some(cur)
    requires IsFinalisable(s, lastFinalised, haveLast, now, limit, out)
    ensures CrankPasses(s, lastFinalised, haveLast, cur, now, 0) <==> out != []
    ensures out != [] ==> out[0] == s.Next(lastFinalised, haveLast)
  {
    CrankPassesExactly(s, lastFinalised, haveLast, cur, now, 0);
    assert out != [] ==> out[0] == s.Next(lastFinalised, haveLast);
    assert out == [] ==> s.Next(lastFinalised, haveLast) + |out| == s.Next(lastFinalised, haveLast);
  }
}
