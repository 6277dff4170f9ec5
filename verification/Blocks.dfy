// internal/gnochain/rpc.go, BlockEvents, and the bot's choice among a block's
// events: what a scan has to announce, and the key it remembers each event by.
module Blocks {
  import opened Decimal
  import opened Strings

  // ---- events of a block

  datatype RawEvent = RawEvent(realmEvent: bool, typ: string, pkg: string)

  datatype Tx = Tx(failed: bool, events: seq<RawEvent>)

  datatype Event = Event(height: int, tx: nat, index: nat, typ: string, pkg: string)

  /** The bot's configuration, and the chain it watches. */
  datatype Config = Config(pkgs: set<string>, types: set<string>, maxBlocks: int, startHeight: int,
                           blocks: int -> seq<Tx>)

  function TxEvents(c: Config, h: int, tx: nat, raws: seq<RawEvent>): seq<Event> {
    if raws == [] then []
    else
      var n := |raws| - 1;
      var raw := raws[n];
      TxEvents(c, h, tx, raws[..n])
      + if raw.realmEvent && raw.pkg in c.pkgs then [Event.Event(h, tx, n, raw.typ, raw.pkg)] else []
  }

  /** The realm events of the successful transactions, in order. */
  function BlockEvents(c: Config, h: int, txs: seq<Tx>): seq<Event> {
    if txs == [] then []
    else
      var i := |txs| - 1;
      BlockEvents(c, h, txs[..i]) + if txs[i].failed then [] else TxEvents(c, h, i, txs[i].events)
  }

  function Chosen(c: Config, evs: seq<Event>): seq<Event> {
    if evs == [] then []
    else Chosen(c, evs[..|evs| - 1]) + if evs[|evs| - 1].typ in c.types then [evs[|evs| - 1]] else []
  }

  lemma ChosenStep(c: Config, evs: seq<Event>, k: nat)
    requires k < |evs|
    ensures Chosen(c, evs[..k + 1]) == Chosen(c, evs[..k]) + if evs[k].typ in c.types then [evs[k]] else []
  {
    assert evs[..k + 1][..k] == evs[..k];
  }

  /** What block h contributes to the announcements. */
  function Block(c: Config, h: int): seq<Event> {
    Chosen(c, BlockEvents(c, h, c.blocks(h)))
  }

  /** The chain holds e: a successful transaction emitted it, as a realm event of a watched package. */
  predicate OnChain(c: Config, h: int, txs: seq<Tx>, e: Event) {
    && e.height == h && e.tx < |txs| && !txs[e.tx].failed && e.index < |txs[e.tx].events|
    && var raw := txs[e.tx].events[e.index];
       raw.realmEvent && raw.pkg in c.pkgs && e.typ == raw.typ && e.pkg == raw.pkg
  }

  /** What the bot announces of a chain: the watched events of the selected types. */
  predicate Announced(c: Config, e: Event) {
    OnChain(c, e.height, c.blocks(e.height), e) && e.typ in c.types
  }

  predicate Before(a: Event, b: Event) {
    a.tx < b.tx || (a.tx == b.tx && a.index < b.index)
  }

  /** Two events at the same place of the chain. */
  predicate SamePlace(a: Event, b: Event) {
    a.height == b.height && a.tx == b.tx && a.index == b.index
  }

  ghost predicate Ordered(evs: seq<Event>, h: int) {
    && (forall i :: 0 <= i < |evs| ==> evs[i].height == h)
    && (forall i, j :: 0 <= i < j < |evs| ==> Before(evs[i], evs[j]))
  }

  lemma {:induction false} TxEventsOrdered(c: Config, h: int, tx: nat, raws: seq<RawEvent>)
    ensures Ordered(TxEvents(c, h, tx, raws), h)
    ensures forall e :: e in TxEvents(c, h, tx, raws) ==> e.tx == tx && e.index < |raws|
  {
    if raws != [] {
      TxEventsOrdered(c, h, tx, raws[..|raws| - 1]);
    }
  }

  /** e is one of the realm events of watched packages among those of transaction tx. */
  predicate FromTx(c: Config, h: int, tx: nat, raws: seq<RawEvent>, e: Event) {
    && e.height == h && e.tx == tx && e.index < |raws|
    && raws[e.index].realmEvent && raws[e.index].pkg in c.pkgs
    && e.typ == raws[e.index].typ && e.pkg == raws[e.index].pkg
  }

  /** A transaction yields exactly those. */
  lemma {:induction false} TxEventsExactly(c: Config, h: int, tx: nat, raws: seq<RawEvent>, e: Event)
    ensures e in TxEvents(c, h, tx, raws) <==> FromTx(c, h, tx, raws, e)
  {
    if raws != [] {
      TxEventsExactly(c, h, tx, raws[..|raws| - 1], e);
    }
  }

  lemma OneMoreTx(c: Config, h: int, txs: seq<Tx>, e: Event)
    requires txs != []
    ensures var i := |txs| - 1;
      OnChain(c, h, txs, e) <==> OnChain(c, h, txs[..i], e) || (!txs[i].failed && FromTx(c, h, i, txs[i].events, e))
  {
  }

  /** A block yields exactly those of its successful transactions. */
  lemma {:induction false} BlockEventsExactly(c: Config, h: int, txs: seq<Tx>, e: Event)
    ensures e in BlockEvents(c, h, txs) <==> OnChain(c, h, txs, e)
  {
    if txs != [] {
      hide OnChain, FromTx, TxEvents;
      var i := |txs| - 1;
      BlockEventsExactly(c, h, txs[..i], e);
      TxEventsExactly(c, h, i, txs[i].events, e);
      OneMoreTx(c, h, txs, e);
    }
  }

  lemma {:induction false} BlockEventsOrdered(c: Config, h: int, txs: seq<Tx>)
    ensures Ordered(BlockEvents(c, h, txs), h)
    ensures forall e :: e in BlockEvents(c, h, txs) ==> e.tx < |txs|
  {
    if txs != [] {
      var i := |txs| - 1;
      BlockEventsOrdered(c, h, txs[..i]);
      TxEventsOrdered(c, h, i, txs[i].events);
    }
  }

  lemma {:induction false} ChosenOrdered(c: Config, evs: seq<Event>, h: int)
    requires Ordered(evs, h)
    ensures Ordered(Chosen(c, evs), h)
    ensures forall e :: e in Chosen(c, evs) <==> e in evs && e.typ in c.types
  {
    if evs != [] {
      ChosenOrdered(c, evs[..|evs| - 1], h);
      assert evs == evs[..|evs| - 1] + [evs[|evs| - 1]];
    }
  }

  /**
   * Block h yields exactly the events its successful transactions emitted from
   * watched packages with selected types, once each, in block order.
   */
  lemma BlockOrdered(c: Config, h: int)
    ensures Ordered(Block(c, h), h)
    ensures forall e :: e in Block(c, h) <==> e.height == h && Announced(c, e)
  {
    BlockEventsOrdered(c, h, c.blocks(h));
    ChosenOrdered(c, BlockEvents(c, h, c.blocks(h)), h);
    forall e
      ensures e in BlockEvents(c, h, c.blocks(h)) <==> OnChain(c, h, c.blocks(h), e)
    {
      BlockEventsExactly(c, h, c.blocks(h), e);
    }
  }

  // ---- keys

  function Key(e: Event): string {
    "ev:" + Text(e.height) + ":" + Text(e.tx) + ":" + Text(e.index) + ":" + e.typ
  }

  lemma KeyFields(e: Event)
    ensures Key(e) == "ev:" + (Text(e.height) + [':'] + (Text(e.tx) + [':'] + (Text(e.index) + [':'] + e.typ)))
  {
  }

  /** Keys identify the position of an event in the chain. */
  lemma KeyInjective(a: Event, b: Event)
    requires Key(a) == Key(b)
    ensures SamePlace(a, b)
  {
    KeyFields(a);
    KeyFields(b);
    var za, zb := Text(a.index) + [':'] + a.typ, Text(b.index) + [':'] + b.typ;
    var ya, yb := Text(a.tx) + [':'] + za, Text(b.tx) + [':'] + zb;
    var xa, xb := Text(a.height) + [':'] + ya, Text(b.height) + [':'] + yb;
    assert xa == ("ev:" + xa)[3..] && xb == ("ev:" + xb)[3..];
    FirstFieldUnique(Text(a.height), ya, Text(b.height), yb, ':');
    FirstFieldUnique(Text(a.tx), za, Text(b.tx), zb, ':');
    FirstFieldUnique(Text(a.index), a.typ, Text(b.index), b.typ, ':');
    TextInjective(a.height, b.height);
    TextInjective(a.tx, b.tx);
    TextInjective(a.index, b.index);
  }
}
