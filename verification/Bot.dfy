// bot/watcher.go: the scan itself, in the shape of the program, against the
// scan of the Watcher module.
module BotScan {
  import opened Basics
  import opened BotState
  import opened Blocks
  import opened Watcher

  function SourceOf(c: Config): Source {
    Source(h => Block(c, h), e => Key(e), c.maxBlocks, c.startHeight)
  }

  /** s is what the bot of configuration c sees. */
  ghost predicate Shows(s: Source, c: Config) {
    && s.maxBlocks == c.maxBlocks && s.startHeight == c.startHeight
    && (forall h :: ShowsBlock(s, c, h))
    && (forall e :: s.key(e) == Key(e))
  }

  ghost predicate ShowsBlock(s: Source, c: Config, h: int) {
    s.block(h) == Block(c, h)
  }

  lemma SameLimits(s: Source, c: Config)
    requires Shows(s, c)
    ensures s.maxBlocks == c.maxBlocks && s.startHeight == c.startHeight
  {
  }

  /** The run properties of the Watcher module apply to every configuration and chain. */
  lemma ShownIsSound(s: Source, c: Config)
    requires Shows(s, c)
    ensures Sound(s)
  {
    forall h
      ensures Ordered(s.block(h), h)
    {
      BlockOrdered(c, h);
      assert ShowsBlock(s, c, h);
    }
    forall a, b | s.key(a) == s.key(b)
      ensures SamePlace(a, b)
    {
      KeyInjective(a, b);
    }
  }

  /** A range of blocks holds exactly the announced events of its heights. */
  lemma {:induction false} ShownRange(s: Source, c: Config, lo: int, hi: int, e: Event)
    requires Shows(s, c)
    ensures e in Range(s, lo, hi) <==> lo < e.height <= hi && Announced(c, e)
    decreases hi - lo
  {
    if lo < hi {
      ShownRange(s, c, lo, hi - 1, e);
      BlockOrdered(c, hi);
      assert ShowsBlock(s, c, hi);
    }
  }

  /**
   * For every configuration and chain, over every run with restarts anywhere:
   * every selected event on chain between the first cursor and the last is
   * announced. Without restarts the log grows by exactly those, each once and
   * in the order of the chain.
   */
  lemma EveryBotAnnounces(c: Config, ws: seq<World>, ops: seq<Op>, n: nat)
    requires Run(SourceOf(c), ws, ops) && n < |ws| && ws[0].height == ws[0].diskHeight
    ensures forall e: Event :: ws[0].height < e.height <= ws[n].height && Announced(c, e) ==> e in ws[n].board.log
    ensures (forall i :: 0 <= i < |ops| ==> ops[i].Tick?) ==>
              && ws[0].board.log <= ws[n].board.log
              && var more := ws[n].board.log[|ws[0].board.log|..];
                 && (forall e: Event :: e in more <==> ws[0].height < e.height <= ws[n].height && Announced(c, e))
                 && (forall i, j :: 0 <= i < j < |more| ==> InOrder(more[i], more[j]))
  {
    var s := SourceOf(c);
    ShownIsSound(s, c);
    NothingMissed(s, ws, ops, n);
    forall e: Event
      ensures e in Range(s, ws[0].height, ws[n].height)
          <==> ws[0].height < e.height <= ws[n].height && Announced(c, e)
    {
      ShownRange(s, c, ws[0].height, ws[n].height, e);
    }
    if forall i :: 0 <= i < |ops| ==> ops[i].Tick? {
      AnnouncedOnceInOrder(s, ws, ops, n);
      RangeInOrder(s, ws[0].height, ws[n].height);
      assert ws[n].board.log[|ws[0].board.log|..] == Range(s, ws[0].height, ws[n].height);
    }
  }

  /** A scan from a clean cursor announces exactly the announced events of the heights it passes. */
  lemma Appends(s: Source, c: Config, b: Board, lo: int, hi: int, now: int, b': Board)
    requires Shows(s, c) && lo <= hi && Clean(s, b.sent, lo) && b' == Scanned(s, b, lo, hi, now)
    ensures b.log <= b'.log
    ensures forall e :: e in b'.log[|b.log|..] <==> lo < e.height <= hi && Announced(c, e)
  {
    ShownIsSound(s, c);
    ScanAnnouncesRange(s, b, lo, hi, now);
    assert b'.log[|b.log|..] == Range(s, lo, hi);
    forall e: Event
      ensures e in Range(s, lo, hi) <==> lo < e.height <= hi && Announced(c, e)
    {
      ShownRange(s, c, lo, hi, e);
    }
  }

  class Bot {
    const c: Config
    const state: State
    var log: seq<Event>

    constructor (c: Config, state: State)
      ensures this.c == c && this.state == state && log == []
    {
      this.c, this.state, log := c, state, [];
    }

    /** The checks before the loop: a zero cursor and a shorter chain re-initialise it. */
    method PlaceCursor(ghost s: Source, head: int)
      requires Shows(s, c)
      modifies state`height
      ensures state.height == Cursor(s, old(state.height), head)
      ensures old(state.height) == 0 ==>
                state.height == (if 0 < c.startHeight <= head then c.startHeight else head) - 1
      ensures old(state.height) != 0 ==>
                state.height == if head < old(state.height) then head - 1 else old(state.height)
    {
      if state.height == 0 {
        var start := c.startHeight;
        if start <= 0 || start > head {
          start := head;
        }
        state.height := start - 1;
      }
      if head < state.height {
        state.height := head - 1;
      }
    }

    /** `fetched` blocks load before an error or a cancellation. */
    method Scan(ghost s: Source, head: int, fetched: nat, now: int) returns (failed: bool)
      requires Shows(s, c)
      modifies this, state
      ensures Board(state.sent, log)
           == Scanned(s, Board(old(state.sent), old(log)), Cursor(s, old(state.height), head),
                      Reached(s, old(state.height), head, fetched), now)
      ensures state.height == Reached(s, old(state.height), head, fetched)
      ensures state.attempt == old(state.attempt) && state.disk == old(state.disk)
      ensures failed <==> state.height < Reached(s, old(state.height), head, Abs(c.maxBlocks))
      ensures var was := old(state.height); 0 < was <= head ==>
                && state.height == Max(was, Min(Min(head, was + c.maxBlocks), was + fetched))
                && (Clean(s, old(state.sent), was) ==>
                      && old(log) <= log
                      && forall e :: e in log[|old(log)|..] <==> was < e.height <= state.height && Announced(c, e))
    {
      hide Shows, Scanned, Clean, Announced, Cursor;
      SameLimits(s, c);
      ghost var first := Board(state.sent, log);
      PlaceCursor(s, head);
      ghost var lo := state.height;
      var last := head;
      if last - state.height > c.maxBlocks {
        last := state.height + c.maxBlocks;
      }
      failed := ScanTo(s, last, fetched, now);
      assert state.height == Reached(s, old(state.height), head, fetched);
      assert Board(state.sent, log) == Scanned(s, first, lo, state.height, now);
      if 0 < old(state.height) <= head && Clean(s, old(state.sent), lo) {
        Appends(s, c, first, lo, state.height, now, Board(state.sent, log));
      }
    }

    /** The loop over blocks, from the cursor to `last`. */
    method ScanTo(ghost s: Source, last: int, fetched: nat, now: int) returns (failed: bool)
      requires Shows(s, c)
      modifies this`log, state`sent, state`height
      ensures Board(state.sent, log)
           == Scanned(s, Board(old(state.sent), old(log)), old(state.height), state.height, now)
      ensures state.height == Max(old(state.height), Min(last, old(state.height) + fetched))
      ensures failed <==> state.height < last
    {
      hide Shows;
      ghost var first := Board(state.sent, log);
      var lo := state.height;
      var h := state.height + 1;
      while h <= last
        invariant lo <= state.height == h - 1 <= Max(lo, last) && h - 1 <= lo + fetched
        invariant Board(state.sent, log) == Scanned(s, first, lo, h - 1, now)
        decreases last - h
      {
        if state.height == lo + fetched {
          return true;
        }
        ScanBlock(s, first, lo, h, now);
        h := h + 1;
      }
      return false;
    }

    /** One block: fetched, posted, passed. */
    method ScanBlock(ghost s: Source, ghost first: Board, ghost lo: int, h: int, now: int)
      requires Shows(s, c) && lo < h && Board(state.sent, log) == Scanned(s, first, lo, h - 1, now)
      modifies this`log, state`sent, state`height
      ensures Board(state.sent, log) == Scanned(s, first, lo, h, now)
      ensures state.height == h
    {
      ScannedStep(s, first, lo, h, now);
      assert ShowsBlock(s, c, h);
      var events := Fetch(h);
      PostBlock(s, events, now);
      state.height := h;
    }

    /** The loops over a block's transactions and their events. */
    method Fetch(h: int) returns (out: seq<Event>)
      ensures out == BlockEvents(c, h, c.blocks(h))
      ensures forall e: Event :: e in out <==> OnChain(c, h, c.blocks(h), e)
    {
      hide OnChain, TxEvents;
      out := [];
      var txs := c.blocks(h);
      for i := 0 to |txs|
        invariant out == BlockEvents(c, h, txs[..i])
      {
        assert txs[..i + 1][..i] == txs[..i];
        if txs[i].failed {
          continue;
        }
        out := FetchTx(h, i, txs[i].events, out);
      }
      assert txs[..|txs|] == txs;
      forall e: Event
        ensures e in out <==> OnChain(c, h, txs, e)
      {
        BlockEventsExactly(c, h, txs, e);
      }
    }

    method FetchTx(h: int, tx: nat, raws: seq<RawEvent>, before: seq<Event>) returns (out: seq<Event>)
      ensures out == before + TxEvents(c, h, tx, raws)
    {
      out := before;
      for n := 0 to |raws|
        invariant out == before + TxEvents(c, h, tx, raws[..n])
      {
        assert raws[..n + 1][..n] == raws[..n];
        var raw := raws[n];
        if !raw.realmEvent || raw.pkg !in c.pkgs {
          continue;
        }
        Associate(before, TxEvents(c, h, tx, raws[..n]), [Event.Event(h, tx, n, raw.typ, raw.pkg)]);
        out := out + [Event.Event(h, tx, n, raw.typ, raw.pkg)];
      }
      assert raws[..|raws|] == raws;
    }

    /** The loop over a block's events: the selected ones that are not marked yet. */
    method PostBlock(ghost s: Source, events: seq<Event>, now: int)
      requires forall e :: s.key(e) == Key(e)
      modifies this`log, state`sent
      ensures Board(state.sent, log) == AnnounceAll(s, Board(old(state.sent), old(log)), Chosen(c, events), now)
    {
      ghost var before := Board(state.sent, log);
      for k := 0 to |events|
        invariant Board(state.sent, log) == AnnounceAll(s, before, Chosen(c, events[..k]), now)
      {
        var ev := events[k];
        ChosenStep(c, events, k);
        if ev.typ !in c.types {
          assert Chosen(c, events[..k + 1]) == Chosen(c, events[..k]);
          continue;
        }
        AnnounceStep(s, before, Chosen(c, events[..k]), ev, now);
        var key := Key(ev);
        assert key == s.key(ev);
        var isNew := state.Once(key, now);
        if !isNew {
          continue;
        }
        log := log + [ev];
      }
      assert events[..|events|] == events;
    }
  }
}
