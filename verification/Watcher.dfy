// bot/watcher.go, scan: a cursor over blocks, announcing each selected event.
// Blocks may fail to load, the process may die anywhere and restart from its
// last saved file.
module Watcher {
  import opened Basics
  import opened BotState
  import opened Blocks

  /** What a scan sees: per block the selected events, and the key of each event. */
  datatype Source = Source(block: int -> seq<Event>, key: Event -> string, maxBlocks: int, startHeight: int)

  /** Each block lists its events in order, and keys tell events apart. */
  ghost predicate Sound(s: Source) {
    && (forall h :: Ordered(s.block(h), h))
    && (forall a, b :: s.key(a) == s.key(b) ==> SamePlace(a, b))
  }

  /** No event above the cursor has been marked. */
  ghost predicate Clean(s: Source, sent: Marks, cursor: int) {
    forall e: Event :: cursor < e.height ==> s.key(e) !in sent
  }

  // ---- announcing

  datatype Board = Board(sent: Marks, log: seq<Event>)

  function Announce(s: Source, b: Board, e: Event, now: int): Board {
    if s.key(e) in b.sent then b else Board(b.sent[s.key(e) := now], b.log + [e])
  }

  function AnnounceAll(s: Source, b: Board, evs: seq<Event>, now: int): Board {
    if evs == [] then b else Announce(s, AnnounceAll(s, b, evs[..|evs| - 1], now), evs[|evs| - 1], now)
  }

  lemma AnnounceStep(s: Source, b: Board, evs: seq<Event>, e: Event, now: int)
    ensures AnnounceAll(s, b, evs + [e], now) == Announce(s, AnnounceAll(s, b, evs, now), e, now)
  {
    assert (evs + [e])[..|evs + [e]| - 1] == evs;
  }

  /** The board after announcing blocks lo+1 .. hi. */
  function Scanned(s: Source, b: Board, lo: int, hi: int, now: int): Board
    decreases hi - lo
  {
    if hi <= lo then b else AnnounceAll(s, Scanned(s, b, lo, hi - 1, now), s.block(hi), now)
  }

  lemma ScannedStep(s: Source, b: Board, lo: int, hi: int, now: int)
    requires lo < hi
    ensures Scanned(s, b, lo, hi, now) == AnnounceAll(s, Scanned(s, b, lo, hi - 1, now), s.block(hi), now)
  {
  }

  /** The selected events of blocks lo+1 .. hi, in order. */
  function Range(s: Source, lo: int, hi: int): seq<Event>
    decreases hi - lo
  {
    if hi <= lo then [] else Range(s, lo, hi - 1) + s.block(hi)
  }

  /** The cursor a scan starts from: zero and a shorter chain re-initialise it. */
  function Cursor(s: Source, height: int, head: int): int {
    var h := if height != 0 then height
             else if s.startHeight <= 0 || s.startHeight > head then head - 1 else s.startHeight - 1;
    if head < h then head - 1 else h
  }

  /** Where a scan stops if `fetched` blocks load before an error or a cancellation. */
  function Reached(s: Source, height: int, head: int, fetched: nat): int {
    var lo := Cursor(s, height, head);
    var hi := if head - lo > s.maxBlocks then lo + s.maxBlocks else head;
    Max(lo, Min(hi, lo + fetched))
  }

  // ---- one scan from a clean cursor

  function Keys(s: Source, evs: seq<Event>): set<string> {
    set e | e in evs :: s.key(e)
  }

  /** The events carry different keys, none of them marked. */
  predicate AllNew(s: Source, sent: Marks, evs: seq<Event>) {
    && (forall i :: 0 <= i < |evs| ==> s.key(evs[i]) !in sent)
    && forall i, j :: 0 <= i < j < |evs| ==> s.key(evs[i]) != s.key(evs[j])
  }

  lemma AllNewStep(s: Source, sent: Marks, evs: seq<Event>, n: nat)
    requires AllNew(s, sent, evs) && n == |evs| - 1
    ensures AllNew(s, sent, evs[..n]) && s.key(evs[n]) !in sent && s.key(evs[n]) !in Keys(s, evs[..n])
    ensures evs == evs[..n] + [evs[n]] && Keys(s, evs) == Keys(s, evs[..n]) + {s.key(evs[n])}
  {
    assert evs == evs[..n] + [evs[n]];
  }

  lemma {:induction false} AnnounceUnmarked(s: Source, b: Board, evs: seq<Event>, now: int)
    requires AllNew(s, b.sent, evs)
    ensures AnnounceAll(s, b, evs, now).log == b.log + evs
    ensures AnnounceAll(s, b, evs, now).sent.Keys == b.sent.Keys + Keys(s, evs)
  {
    if evs != [] {
      var n := |evs| - 1;
      AllNewStep(s, b.sent, evs, n);
      AnnounceUnmarked(s, b, evs[..n], now);
      Associate(b.log, evs[..n], [evs[n]]);
    }
  }

  lemma AnnounceFresh(s: Source, b: Board, evs: seq<Event>, now: int, h: int)
    requires Sound(s)
    requires Ordered(evs, h) && Clean(s, b.sent, h - 1)
    ensures AnnounceAll(s, b, evs, now).log == b.log + evs
    ensures Clean(s, AnnounceAll(s, b, evs, now).sent, h)
  {
    forall i, j | 0 <= i < j < |evs|
      ensures s.key(evs[i]) != s.key(evs[j])
    {
      assert Before(evs[i], evs[j]);
      assert s.key(evs[i]) == s.key(evs[j]) ==> SamePlace(evs[i], evs[j]);
    }
    AnnounceUnmarked(s, b, evs, now);
    forall e: Event | h < e.height
      ensures s.key(e) !in AnnounceAll(s, b, evs, now).sent
    {
      assert forall x :: x in evs && s.key(x) == s.key(e) ==> SamePlace(x, e);
    }
  }

  /** From a clean cursor a scan announces exactly the events of the blocks it passes, once each and in order. */
  lemma {:induction false} ScanAnnouncesRange(s: Source, b: Board, lo: int, hi: int, now: int)
    requires Sound(s)
    requires Clean(s, b.sent, lo) && lo <= hi
    ensures Scanned(s, b, lo, hi, now).log == b.log + Range(s, lo, hi)
    ensures Clean(s, Scanned(s, b, lo, hi, now).sent, hi)
    decreases hi - lo
  {
    if lo < hi {
      ScanAnnouncesRange(s, b, lo, hi - 1, now);
      assert Ordered(s.block(hi), hi);
      AnnounceFresh(s, Scanned(s, b, lo, hi - 1, now), s.block(hi), now, hi);
    }
  }

  // ---- runs with failures, saves and restarts

  /** The bot in memory, its file, everything it announced, and the highest head it saw. */
  datatype World = World(height: int, board: Board, diskHeight: int, diskSent: Marks, head: int)

  /**
   * Tick: scan `fetched` blocks, mark the keys of the reminders sent, save
   * (the file is replaced if written). Crash: the process dies after `fetched`
   * blocks and `partial` events of the next, then restarts from its file.
   */
  datatype Op =
    | Tick(head: int, fetched: nat, now: int, reminders: map<string, int>, written: bool)
    | Crash(head: int, fetched: nat, partial: nat, now: int)

  ghost predicate Enabled(s: Source, w: World, op: Op) {
    && w.head <= op.head
    && (op.Tick? ==> forall e: Event :: s.key(e) !in op.reminders)
  }

  function Next(s: Source, w: World, op: Op): World {
    var hi := Reached(s, w.height, op.head, op.fetched);
    var b := Scanned(s, w.board, Cursor(s, w.height, op.head), hi, op.now);
    match op
    case Tick(head, _, now, reminders, written) =>
      var sent := Pruned(b.sent + reminders, now);
      if written then World(hi, b.(sent := sent), hi, sent, head)
      else World(hi, b.(sent := sent), w.diskHeight, w.diskSent, head)
    case Crash(head, _, partial, now) =>
      var next := s.block(hi + 1);
      var b' := AnnounceAll(s, b, next[..Min(partial, |next|)], now);
      World(w.diskHeight, Board(w.diskSent, b'.log), w.diskHeight, w.diskSent, head)
  }

  /** A bot with a positive cursor that has nothing above it marked, in memory and on disk. */
  ghost predicate Good(s: Source, w: World) {
    && 0 < w.diskHeight <= w.height <= w.head
    && Clean(s, w.board.sent, w.height) && Clean(s, w.diskSent, w.diskHeight)
  }

  /** Every selected event of the blocks lo+1 .. hi is in the log. */
  ghost predicate Complete(s: Source, log: seq<Event>, lo: int, hi: int) {
    forall e :: e in Range(s, lo, hi) ==> e in log
  }

  lemma {:induction false} RangeConcat(s: Source, a: int, b: int, d: int)
    requires a <= b <= d
    ensures Range(s, a, b) + Range(s, b, d) == Range(s, a, d)
    decreases d - b
  {
    if b < d {
      RangeConcat(s, a, b, d - 1);
    }
  }

  lemma {:induction false} RangeHeights(s: Source, lo: int, hi: int)
    requires Sound(s)
    ensures forall e :: e in Range(s, lo, hi) ==> lo < e.height <= hi
    decreases hi - lo
  {
    if lo < hi {
      RangeHeights(s, lo, hi - 1);
      assert Ordered(s.block(hi), hi);
    }
  }

  /** A range of blocks lists its events once each. */
  lemma {:induction false} RangeDistinct(s: Source, lo: int, hi: int)
    requires Sound(s)
    ensures forall i, j :: 0 <= i < j < |Range(s, lo, hi)| ==> Range(s, lo, hi)[i] != Range(s, lo, hi)[j]
    decreases hi - lo
  {
    if lo < hi {
      RangeDistinct(s, lo, hi - 1);
      RangeHeights(s, lo, hi - 1);
      assert Ordered(s.block(hi), hi);
    }
  }

  /** a comes before b on the chain. */
  predicate InOrder(a: Event, b: Event) {
    a.height < b.height || (a.height == b.height && Before(a, b))
  }

  /** And in the order of the chain. */
  lemma {:induction false} RangeInOrder(s: Source, lo: int, hi: int)
    requires Sound(s)
    ensures forall i, j :: 0 <= i < j < |Range(s, lo, hi)| ==> InOrder(Range(s, lo, hi)[i], Range(s, lo, hi)[j])
    decreases hi - lo
  {
    if lo < hi {
      RangeInOrder(s, lo, hi - 1);
      RangeHeights(s, lo, hi - 1);
      assert Ordered(s.block(hi), hi);
    }
  }

  /** The events a step appends. */
  function Appended(s: Source, w: World, op: Op): seq<Event> {
    var hi := Reached(s, w.height, op.head, op.fetched);
    var next := s.block(hi + 1);
    Range(s, w.height, hi) + if op.Crash? then next[..Min(op.partial, |next|)] else []
  }

  /** What one step does: it appends events above the cursor only and keeps the bot good. */
  ghost predicate Facts(s: Source, w: World, op: Op, w': World) {
    && Good(s, w) && Good(s, w') && w.diskHeight <= w'.diskHeight
    && w'.board.log == w.board.log + Appended(s, w, op)
    && (forall e :: e in Appended(s, w, op) ==> w.height < e.height)
    && (op.Tick? ==> w.height <= w'.height && Appended(s, w, op) == Range(s, w.height, w'.height))
    && (op.Crash? ==> w'.height == w.diskHeight)
  }

  lemma AppendedAbove(s: Source, w: World, op: Op)
    requires Sound(s)
    requires Good(s, w) && w.head <= op.head
    ensures forall e :: e in Appended(s, w, op) ==> w.height < e.height
  {
    var hi := Reached(s, w.height, op.head, op.fetched);
    assert w.height <= hi;
    RangeHeights(s, w.height, hi);
    assert Ordered(s.block(hi + 1), hi + 1);
  }

  lemma TickFacts(s: Source, w: World, op: Op)
    requires Sound(s)
    requires Good(s, w) && Enabled(s, w, op) && op.Tick?
    ensures Facts(s, w, op, Next(s, w, op))
  {
    AppendedAbove(s, w, op);
    var hi := Reached(s, w.height, op.head, op.fetched);
    ScanAnnouncesRange(s, w.board, w.height, hi, op.now);
    var b := Scanned(s, w.board, w.height, hi, op.now);
    assert Clean(s, Pruned(b.sent + op.reminders, op.now), hi);
  }

  lemma CrashFacts(s: Source, w: World, op: Op)
    requires Sound(s)
    requires Good(s, w) && Enabled(s, w, op) && op.Crash?
    ensures Facts(s, w, op, Next(s, w, op))
  {
    hide Scanned, AnnounceAll, Range;
    AppendedAbove(s, w, op);
    var hi := Reached(s, w.height, op.head, op.fetched);
    var next := s.block(hi + 1);
    ScanAnnouncesRange(s, w.board, w.height, hi, op.now);
    assert Ordered(s.block(hi + 1), hi + 1);
    AnnounceFresh(s, Scanned(s, w.board, w.height, hi, op.now), next[..Min(op.partial, |next|)], op.now, hi + 1);
  }

  ghost predicate Run(s: Source, ws: seq<World>, ops: seq<Op>) {
    && |ws| == |ops| + 1 && Good(s, ws[0])
    && forall i :: 0 <= i < |ops| ==> Enabled(s, ws[i], ops[i]) && ws[i + 1] == Next(s, ws[i], ops[i])
  }

  lemma {:induction false} RunFacts(s: Source, ws: seq<World>, ops: seq<Op>, i: nat)
    requires Sound(s)
    requires Run(s, ws, ops) && i < |ops|
    ensures Facts(s, ws[i], ops[i], ws[i + 1])
  {
    if 0 < i {
      RunFacts(s, ws, ops, i - 1);
    }
    if ops[i].Tick? {
      TickFacts(s, ws[i], ops[i]);
    } else {
      CrashFacts(s, ws[i], ops[i]);
    }
  }

  /** The steps of a run, each known by its facts. */
  ghost predicate Known(s: Source, ws: seq<World>, ops: seq<Op>) {
    |ws| == |ops| + 1 && forall i :: 0 <= i < |ops| ==> Facts(s, ws[i], ops[i], ws[i + 1])
  }

  lemma RunKnown(s: Source, ws: seq<World>, ops: seq<Op>)
    requires Sound(s)
    requires Run(s, ws, ops)
    ensures Known(s, ws, ops)
  {
    forall i | 0 <= i < |ops|
      ensures Facts(s, ws[i], ops[i], ws[i + 1])
    {
      RunFacts(s, ws, ops, i);
    }
  }

  lemma {:induction false} LogOfTicks(s: Source, ws: seq<World>, ops: seq<Op>, n: nat)
    requires Known(s, ws, ops) && n < |ws|
    requires forall i :: 0 <= i < n ==> ops[i].Tick?
    ensures ws[0].height <= ws[n].height
    ensures ws[n].board.log == ws[0].board.log + Range(s, ws[0].height, ws[n].height)
  {
    if 0 < n {
      LogOfTicks(s, ws, ops, n - 1);
      assert Facts(s, ws[n - 1], ops[n - 1], ws[n]);
      RangeConcat(s, ws[0].height, ws[n - 1].height, ws[n].height);
      Associate(ws[0].board.log, Range(s, ws[0].height, ws[n - 1].height), Range(s, ws[n - 1].height, ws[n].height));
    }
  }

  /** Without a restart, the log grows by exactly the events of the blocks passed, in order and once each. */
  lemma AnnouncedOnceInOrder(s: Source, ws: seq<World>, ops: seq<Op>, n: nat)
    requires Sound(s)
    requires Run(s, ws, ops) && n < |ws|
    requires forall i :: 0 <= i < |ops| ==> ops[i].Tick?
    ensures var more := Range(s, ws[0].height, ws[n].height);
      && ws[n].board.log == ws[0].board.log + more
      && forall i, j :: 0 <= i < j < |more| ==> more[i] != more[j]
  {
    RunKnown(s, ws, ops);
    LogOfTicks(s, ws, ops, n);
    RangeDistinct(s, ws[0].height, ws[n].height);
  }

  lemma {:induction false} LogComplete(s: Source, ws: seq<World>, ops: seq<Op>, n: nat)
    requires Known(s, ws, ops) && n < |ws| && Good(s, ws[0])
    requires ws[0].height == ws[0].diskHeight
    ensures ws[0].height <= ws[n].diskHeight <= ws[n].height
    ensures Complete(s, ws[n].board.log, ws[0].height, ws[n].height)
  {
    if 0 < n {
      LogComplete(s, ws, ops, n - 1);
      var w := ws[n - 1];
      assert Facts(s, w, ops[n - 1], ws[n]);
      if ops[n - 1].Tick? {
        RangeConcat(s, ws[0].height, w.height, ws[n].height);
      } else {
        RangeConcat(s, ws[0].height, w.diskHeight, w.height);
      }
    }
  }

  /** Over every run, with restarts anywhere, no event of a block passed is missing. */
  lemma NothingMissed(s: Source, ws: seq<World>, ops: seq<Op>, n: nat)
    requires Sound(s)
    requires Run(s, ws, ops) && n < |ws|
    requires ws[0].height == ws[0].diskHeight
    ensures ws[0].height <= ws[n].diskHeight <= ws[n].height
    ensures Complete(s, ws[n].board.log, ws[0].height, ws[n].height)
  {
    RunKnown(s, ws, ops);
    LogComplete(s, ws, ops, n);
  }

  lemma {:induction false} AppendedAfter(s: Source, ws: seq<World>, ops: seq<Op>, i: nat, j: nat)
    requires Known(s, ws, ops) && i <= j < |ws| && Good(s, ws[0])
    ensures Good(s, ws[j]) && ws[i].diskHeight <= ws[j].diskHeight && ws[i].board.log <= ws[j].board.log
    ensures forall k :: |ws[i].board.log| <= k < |ws[j].board.log| ==> ws[i].diskHeight < ws[j].board.log[k].height
    decreases j
  {
    if 0 < j {
      assert Facts(s, ws[j - 1], ops[j - 1], ws[j]);
    }
    if i < j {
      AppendedAfter(s, ws, ops, i, j - 1);
    }
  }

  function Crashes(ops: seq<Op>, n: nat): nat
    requires n <= |ops|
  {
    if n == 0 then 0 else Crashes(ops, n - 1) + if ops[n - 1].Crash? then 1 else 0
  }

  function Times(log: seq<Event>, e: Event): nat {
    multiset(log)[e]
  }

  lemma TimesAdd(a: seq<Event>, b: seq<Event>, e: Event)
    ensures Times(a + b, e) == Times(a, e) + Times(b, e)
  {
  }

  lemma TimesZero(a: seq<Event>, e: Event)
    ensures Times(a, e) == 0 <==> e !in a
  {
  }

  lemma {:induction false} OnceIfDistinct(evs: seq<Event>, e: Event)
    requires forall i, j :: 0 <= i < j < |evs| ==> evs[i] != evs[j]
    ensures Times(evs, e) <= 1
  {
    if evs != [] {
      var n := |evs| - 1;
      OnceIfDistinct(evs[..n], e);
      assert evs == evs[..n] + [evs[n]];
      assert evs[n] !in evs[..n];
    }
  }

  lemma OnceInPrefix(a: seq<Event>, b: seq<Event>, k: nat, e: Event)
    requires k <= |b| && forall i, j :: 0 <= i < j < |a + b| ==> (a + b)[i] != (a + b)[j]
    ensures Times(a + b[..k], e) <= 1
  {
    var c := a + b[..k];
    assert forall i :: 0 <= i < |c| ==> c[i] == (a + b)[i];
    OnceIfDistinct(c, e);
  }

  /** A step appends an event at most once. */
  lemma AppendedOnce(s: Source, w: World, op: Op, e: Event)
    requires Sound(s) && Good(s, w) && w.head <= op.head
    ensures Times(Appended(s, w, op), e) <= 1
  {
    hide Sound, Clean, Times;
    var hi := Reached(s, w.height, op.head, op.fetched);
    var next := s.block(hi + 1);
    assert Range(s, w.height, hi + 1) == Range(s, w.height, hi) + next;
    RangeDistinct(s, w.height, hi + 1);
    OnceInPrefix(Range(s, w.height, hi), next, if op.Crash? then Min(op.partial, |next|) else 0, e);
  }

  predicate Passed(w: World, e: Event) {
    e.height <= w.height
  }

  /** What the count of an event grows by is paid for by a crash, or by the cursor passing it. */
  lemma RepeatStep(s: Source, w: World, op: Op, w': World, e: Event)
    requires Facts(s, w, op, w') && Times(Appended(s, w, op), e) <= 1
    requires forall x :: x in Range(s, w.height, w'.height) ==> x.height <= w'.height
    ensures Times(w'.board.log, e) + (if Passed(w, e) then 1 else 0)
         <= Times(w.board.log, e) + (if op.Crash? then 1 else 0) + if Passed(w', e) then 1 else 0
  {
    hide Times, Appended, Good, Range;
    TimesAdd(w.board.log, Appended(s, w, op), e);
    TimesZero(Appended(s, w, op), e);
  }

  lemma {:induction false} RepeatsAlong(s: Source, ws: seq<World>, ops: seq<Op>, e: Event, n: nat)
    requires Sound(s) && Known(s, ws, ops) && n < |ws|
    requires forall i :: 0 <= i < |ops| ==> Times(Appended(s, ws[i], ops[i]), e) <= 1
    ensures Times(ws[n].board.log, e)
         <= Times(ws[0].board.log, e) + Crashes(ops, n) + if Passed(ws[n], e) then 1 else 0
  {
    if 0 < n {
      hide Sound, Facts, Times, Appended, Range, Passed;
      RepeatsAlong(s, ws, ops, e, n - 1);
      assert Facts(s, ws[n - 1], ops[n - 1], ws[n - 1 + 1]);
      RangeHeights(s, ws[n - 1].height, ws[n].height);
      assert Times(Appended(s, ws[n - 1], ops[n - 1]), e) <= 1;
      RepeatStep(s, ws[n - 1], ops[n - 1], ws[n], e);
    }
  }

  /** Over every run, with restarts anywhere, an event is announced at most once more than the bot crashed. */
  lemma RepeatsAreCrashes(s: Source, ws: seq<World>, ops: seq<Op>, e: Event, n: nat)
    requires Sound(s)
    requires Run(s, ws, ops) && n < |ws|
    ensures Times(ws[n].board.log, e) <= Times(ws[0].board.log, e) + Crashes(ops, n) + 1
  {
    hide Sound, Times, Appended;
    RunKnown(s, ws, ops);
    forall i | 0 <= i < |ops|
      ensures Times(Appended(s, ws[i], ops[i]), e) <= 1
    {
      assert Facts(s, ws[i], ops[i], ws[i + 1]) && Enabled(s, ws[i], ops[i]);
      AppendedOnce(s, ws[i], ops[i], e);
    }
    RepeatsAlong(s, ws, ops, e, n);
  }

  /**
   * What is announced after a save lies above the saved cursor: an event can
   * repeat only if the save does not cover it.
   */
  lemma SavedNeverRepeats(s: Source, ws: seq<World>, ops: seq<Op>, i: nat, j: nat)
    requires Sound(s)
    requires Run(s, ws, ops) && i <= j < |ws|
    ensures ws[i].board.log <= ws[j].board.log
    ensures forall k :: |ws[i].board.log| <= k < |ws[j].board.log| ==> ws[i].diskHeight < ws[j].board.log[k].height
  {
    RunKnown(s, ws, ops);
    AppendedAfter(s, ws, ops, i, j);
  }
}
