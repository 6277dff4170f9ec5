// internal/gnochain/views.go: reading a whole list page by page, against a
// server whose list may grow between two requests.
module Paging {
  import opened Basics

  const PAGE: pos := 100

  /** The list as the n-th request finds it, and whether that request fails. */
  datatype Server<T> = Server(at: nat -> seq<T>, fails: nat -> bool)

  ghost predicate Grows<T>(s: Server<T>, final: seq<T>) {
    && (forall n: nat :: s.at(n) <= final)
    && (forall n: nat, m: nat :: n <= m ==> s.at(n) <= s.at(m))
  }

  function Page<T>(list: seq<T>, offset: nat): seq<T> {
    if |list| <= offset then [] else list[offset..Min(offset + PAGE, |list|)]
  }

  lemma PageExtends<T>(list: seq<T>, offset: nat)
    requires offset <= |list|
    ensures list[..offset] + Page(list, offset) == list[..Min(offset + PAGE, |list|)]
  {
  }

  lemma PrefixOfLonger<T>(a: seq<T>, b: seq<T>, k: nat)
    requires a <= b && k <= |a|
    ensures a[..k] == b[..k]
  {
  }

  /** AllFeeds: offsets 0, 100, ...; a short page or a full count ends the loop. */
  method AllFeeds<T>(s: Server<T>, ghost final: seq<T>) returns (r: Result<seq<T>, ()>)
    requires Grows(s, final)
    ensures r.Ok? ==> s.at(0) <= r.value <= final
    ensures (forall n: nat :: !s.fails(n)) ==> r.Ok?
  {
    var out, offset, n := [], 0, 0;
    while true
      invariant offset == n * PAGE == |out|
      invariant out <= final
      decreases |final| - |out|
    {
      if s.fails(n) {
        return Err(());
      }
      var list := s.at(n);
      var page := Page(list, offset);
      if |out| <= |list| {
        PageExtends(list, offset);
        PrefixOfLonger(list, final, offset);
        assert out == list[..offset];
      }
      out := out + page;
      if |page| < PAGE || |out| >= |list| {
        assert s.at(0) <= list;
        return Ok(out);
      }
      offset := offset + PAGE;
      n := n + 1;
    }
  }

  /** AllDisputes: ids count from 1; the reported total decides whether to go on. */
  method AllDisputes<T>(s: Server<T>, ghost final: seq<T>) returns (r: Result<seq<T>, ()>)
    requires Grows(s, final)
    ensures r.Ok? ==> s.at(0) <= r.value <= final
    ensures (forall n: nat :: !s.fails(n)) ==> r.Ok?
  {
    var out, from, n := [], 1, 0;
    while true
      invariant from == n * PAGE + 1 == |out| + 1
      invariant out <= final
      decreases |final| - |out|
    {
      if s.fails(n) {
        return Err(());
      }
      var list := s.at(n);
      var page := Page(list, from - 1);
      if |out| <= |list| {
        PageExtends(list, from - 1);
        PrefixOfLonger(list, final, from - 1);
        assert out == list[..from - 1];
      }
      out := out + page;
      if |page| < PAGE || from + PAGE > |list| {
        assert s.at(0) <= list;
        return Ok(out);
      }
      from := from + PAGE;
      n := n + 1;
    }
  }

  /** Subscribers: the server says whether another page follows; the list stands still. */
  method Subscribers<T>(list: seq<T>, fails: nat -> bool) returns (r: Result<seq<T>, ()>)
    ensures r.Ok? ==> r.value == list
    ensures (forall n: nat :: !fails(n)) ==> r.Ok?
  {
    var all: Option<seq<T>>, offset, n := None, 0, 0;
    while true
      invariant offset == n * PAGE <= |list|
      invariant n == 0 <==> all.None?
      invariant all.Some? ==> all.value == list[..offset]
      decreases |list| - offset
    {
      if fails(n) {
        return Err(());
      }
      var page := Page(list, offset);
      var more := offset + |page| < |list|;
      PageExtends(list, offset);
      all := if all.None? then Some(page) else Some(all.value + page);
      if !more || |page| == 0 {
        return Ok(all.value);
      }
      offset := offset + PAGE;
      n := n + 1;
    }
  }

  /** A standing list is returned whole: every item once, in order. */
  lemma StandingListIsWhole<T>(s: Server<T>, final: seq<T>, out: seq<T>)
    requires Grows(s, final) && s.at(0) == final
    requires s.at(0) <= out <= final
    ensures out == final
  {
  }

  /** SlotOf: the first slot an address holds, or -1; blank slots hold nobody. */
  method SlotOf(slots: seq<string>, addr: string) returns (i: int)
    ensures -1 <= i < |slots|
    ensures 0 <= i ==> slots[i] == addr && addr != "" && forall k :: 0 <= k < i ==> slots[k] != addr
    ensures i == -1 ==> addr == "" || addr !in slots
  {
    for k := 0 to |slots|
      invariant forall j :: 0 <= j < k ==> slots[j] == "" || slots[j] != addr
    {
      if slots[k] != "" && slots[k] == addr {
        return k;
      }
    }
    return -1;
  }
}
