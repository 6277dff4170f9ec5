// bot/state.go: what the bot remembers having sent or attempted. Save prunes
// both memories; this module shows what pruning can and cannot change.
module BotState {
  import opened Basics

  const WEEK := 7 * 24 * 3600

  type Marks = map<string, int>

  /** What is left of the marks after a Save at time now. */
  function Pruned(m: Marks, now: int): Marks {
    map k | k in m && now - WEEK <= m[k] :: m[k]
  }

  function DueGranted(m: Marks, key: string, every: int, now: int): bool {
    !(key in m && now - m[key] < every)
  }

  datatype Saved = Saved(height: int, sent: Marks, attempt: Marks)

  class State {
    var height: int
    var sent: Marks
    var attempt: Marks
    var disk: Option<Saved>

    constructor ()
      ensures height == 0 && sent == map[] && attempt == map[] && disk == None
    {
      height, sent, attempt, disk := 0, map[], map[], None;
    }

    method Once(key: string, now: int) returns (isNew: bool)
      modifies this`sent
      ensures isNew <==> key !in old(sent)
      ensures sent == if isNew then old(sent)[key := now] else old(sent)
    {
      if key in sent {
        return false;
      }
      sent := sent[key := now];
      return true;
    }

    method Due(key: string, every: int, now: int) returns (granted: bool)
      modifies this`attempt
      ensures granted == DueGranted(old(attempt), key, every, now)
      ensures attempt == if granted then old(attempt)[key := now] else old(attempt)
      ensures granted <==> key in old(attempt) ==> every <= now - old(attempt)[key]
    {
      if key in attempt && now - attempt[key] < every {
        return false;
      }
      attempt := attempt[key := now];
      return true;
    }

    /** Deletes the marks older than a week, in whatever order the map yields them. */
    static method Prune(m: Marks, now: int) returns (kept: Marks)
      ensures kept == Pruned(m, now)
      ensures forall k :: k in kept <==> k in m && now - 7 * 24 * 3600 <= m[k]
      ensures forall k :: k in kept ==> kept[k] == m[k]
    {
      kept := m;
      var cutoff := now - WEEK;
      var unseen := m.Keys;
      while unseen != {}
        invariant unseen <= m.Keys
        invariant forall k :: k in kept <==> k in m && (k in unseen || cutoff <= m[k])
        invariant forall k :: k in kept ==> kept[k] == m[k]
        decreases unseen
      {
        var k :| k in unseen;
        unseen := unseen - {k};
        if m[k] < cutoff {
          kept := kept - {k};
        }
      }
    }

    /** written says whether the file was replaced (it is not without a path or on an error). */
    method Save(now: int, written: bool)
      modifies this
      ensures height == old(height)
      ensures sent == Pruned(old(sent), now) && attempt == Pruned(old(attempt), now)
      ensures disk == if written then Some(Saved(height, sent, attempt)) else old(disk)
    {
      sent := Prune(sent, now);
      attempt := Prune(attempt, now);
      if written {
        disk := Some(Saved(height, sent, attempt));
      }
    }
  }

  // ---- histories

  datatype Use = Due(key: string, every: int) | Once(key: string) | Save

  datatype Moment = Moment(op: Use, now: int)

  datatype Memory = Memory(sent: Marks, attempt: Marks)

  predicate Granted(m: Memory, e: Moment) {
    match e.op
    case Due(key, every) => DueGranted(m.attempt, key, every, e.now)
    case Once(key) => key !in m.sent
    case Save => false
  }

  /** The memory after one event; a forgetful memory prunes when it saves. */
  function After(m: Memory, e: Moment, forgetful: bool): Memory {
    match e.op
    case Due(key, _) => if Granted(m, e) then m.(attempt := m.attempt[key := e.now]) else m
    case Once(key) => if Granted(m, e) then m.(sent := m.sent[key := e.now]) else m
    case Save => if forgetful then Memory(Pruned(m.sent, e.now), Pruned(m.attempt, e.now)) else m
  }

  /** The memory before event i of a history that starts with nothing remembered. */
  function Recall(events: seq<Moment>, i: nat, forgetful: bool): Memory
    requires i <= |events|
  {
    if i == 0 then Memory(map[], map[]) else After(Recall(events, i - 1, forgetful), events[i - 1], forgetful)
  }

  ghost predicate Chronological(events: seq<Moment>) {
    forall i, j :: 0 <= i < j < |events| ==> events[i].now <= events[j].now
  }

  /** All due intervals are at most `most` seconds. */
  ghost predicate Intervals(events: seq<Moment>, most: int) {
    forall i :: 0 <= i < |events| && events[i].op.Due? ==> events[i].op.every <= most
  }

  /** p is f without some marks that are more than a week old at time now. */
  ghost predicate Forgot(p: Marks, f: Marks, now: int) {
    && (forall k :: k in p ==> k in f && f[k] == p[k])
    && (forall k :: k in f && k !in p ==> f[k] < now - WEEK)
  }

  lemma ForgotDue(p: Marks, f: Marks, before: int, key: string, every: int, now: int)
    requires Forgot(p, f, before) && before <= now && every <= WEEK + 1
    ensures DueGranted(p, key, every, now) == DueGranted(f, key, every, now)
    ensures Forgot(p[key := now], f[key := now], now)
  {
  }

  lemma {:induction false} PrunedAttempts(events: seq<Moment>, i: nat)
    requires Chronological(events) && Intervals(events, WEEK + 1) && i < |events|
    ensures Forgot(Recall(events, i, true).attempt, Recall(events, i, false).attempt, events[i].now)
  {
    if 0 < i {
      PrunedAttempts(events, i - 1);
      var e := events[i - 1];
      var p, f := Recall(events, i - 1, true).attempt, Recall(events, i - 1, false).attempt;
      if e.op.Due? {
        ForgotDue(p, f, e.now, e.op.key, e.op.every, e.now);
      }
      assert e.now <= events[i].now;
    }
  }

  /**
   * For intervals up to a week and a second, the pruned store answers every
   * due exactly as one that never forgets.
   */
  lemma PrunedDueAgrees(events: seq<Moment>, i: nat)
    requires Chronological(events) && Intervals(events, WEEK + 1)
    requires i < |events| && events[i].op.Due?
    ensures Granted(Recall(events, i, true), events[i]) == Granted(Recall(events, i, false), events[i])
  {
    PrunedAttempts(events, i);
    ForgotDue(Recall(events, i, true).attempt, Recall(events, i, false).attempt, events[i].now,
              events[i].op.key, events[i].op.every, events[i].now);
  }

  /** The bound is exact: any longer interval is cut short by some history. */
  lemma LongerIntervalIsForgotten(every: int)
    requires WEEK + 1 < every
    ensures var h := [Moment(Due("k", every), 0), Moment(Save, WEEK + 1), Moment(Due("k", every), WEEK + 1)];
      && Chronological(h)
      && Granted(Recall(h, 2, true), h[2]) && !Granted(Recall(h, 2, false), h[2])
  {
    var h := [Moment(Due("k", every), 0), Moment(Save, WEEK + 1), Moment(Due("k", every), WEEK + 1)];
    var one := Memory(map[], map["k" := 0]);
    assert Recall(h, 0, true) == Recall(h, 0, false) == Memory(map[], map[]);
    assert Recall(h, 1, true) == one && Recall(h, 1, false) == one;
    assert Recall(h, 2, false) == one;
    assert "k" !in Recall(h, 2, true).attempt;
  }

  // ---- spacing of grants

  /** A granted attempt keeps its mark, or a later one, in a store that never forgets. */
  lemma {:induction false} AttemptRemembered(events: seq<Moment>, i: nat, j: nat)
    requires Chronological(events) && i < j <= |events|
    requires events[i].op.Due? && Granted(Recall(events, i, false), events[i])
    ensures var m := Recall(events, j, false).attempt;
      events[i].op.key in m && events[i].now <= m[events[i].op.key]
    decreases j
  {
    if i + 1 < j {
      AttemptRemembered(events, i, j - 1);
      assert events[i].now <= events[j - 1].now;
    }
  }

  /** Two granted attempts on a key are at least the later one's interval apart. */
  lemma AttemptsSpaced(events: seq<Moment>, i: nat, j: nat)
    requires Chronological(events) && Intervals(events, WEEK + 1) && i < j < |events|
    requires events[i].op.Due? && events[j].op.Due? && events[i].op.key == events[j].op.key
    requires Granted(Recall(events, i, true), events[i]) && Granted(Recall(events, j, true), events[j])
    ensures events[i].now + events[j].op.every <= events[j].now
  {
    PrunedDueAgrees(events, i);
    PrunedDueAgrees(events, j);
    AttemptRemembered(events, i, j);
  }

  /** A sent mark survives until a week after it was made. */
  lemma {:induction false} SentRemembered(events: seq<Moment>, i: nat, j: nat)
    requires Chronological(events) && i < j < |events|
    requires events[i].op.Once? && Granted(Recall(events, i, true), events[i])
    ensures var m := Recall(events, j, true).sent;
      || (events[i].op.key in m && events[i].now <= m[events[i].op.key])
      || events[i].now + WEEK < events[j].now
    decreases j
  {
    if i + 1 < j {
      SentRemembered(events, i, j - 1);
      assert events[j - 1].now <= events[j].now && events[i].now <= events[j - 1].now;
    }
  }

  /** Two grants of once on a key are more than a week apart. */
  lemma OncesSpaced(events: seq<Moment>, i: nat, j: nat)
    requires Chronological(events) && i < j < |events|
    requires events[i].op.Once? && events[j].op.Once? && events[i].op.key == events[j].op.key
    requires Granted(Recall(events, i, true), events[i]) && Granted(Recall(events, j, true), events[j])
    ensures events[i].now + WEEK < events[j].now
  {
    SentRemembered(events, i, j);
  }
}
