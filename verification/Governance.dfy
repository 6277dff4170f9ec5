// gno.land/r/clockwork/gnoracle/core/core.gno: the authority over the core
// realm, its two-step transfer and its freeze. Of the upgradeable proxy only
// this is assumed: it admits the callers of its authority, hands over for an
// admitted caller while not frozen, and stays frozen.
module Governance {
  import opened Basics
  import opened AuthSpec

  const DAO_PATH := "gno.land/r/clockwork/gnoracle/dao"
  const ADMIN := "g1jg8mtutu9khhfwc4nxmuhcpftf0pajdhfvsqf5"
  const TIMELOCK := 7 * 24 * 3600

  /** Who calls: a user's key (no path), or a realm with its package address. */
  datatype Caller = Caller(addr: string, path: string)

  datatype Pending = Pending(spec: string, readyAt: int)

  datatype Gov = Gov(authority: Authority, frozen: bool, authSpec: string, pending: Option<Pending>)

  datatype Op = Propose(spec: string) | Execute | Cancel | Freeze

  datatype Call = Call(who: Caller, now: int, op: Op)

  /** How a description is read: what it parses to, its kind, the realms it grants. */
  datatype Texts = Texts(parse: string -> Result<Authority, Error>, kind: string -> string,
                         realms: string -> seq<string>) {
    /** The three readings say the same, and the first administrator's description is a key. */
    ghost predicate Agree() {
      && parse("addr:" + ADMIN) == Ok(Addr(ADMIN))
      && forall spec :: parse(spec).Ok? ==> Consistent(parse(spec).value, kind(spec), realms(spec))
    }
  }

  predicate Consistent(a: Authority, kind: string, realms: seq<string>) {
    realms == a.Paths() && (kind == "addr" <==> a.Addr?) && "" !in realms
  }

  function TextsOf(valid: string -> bool): Texts {
    Texts(spec => Parse(spec, valid), KindOf, RealmsOf)
  }

  /** The three functions of authspec agree, whatever counts as an address. */
  lemma AuthSpecAgrees(valid: string -> bool)
    requires valid(ADMIN)
    ensures TextsOf(valid).Agree()
  {
    var t := TextsOf(valid);
    ParseInvertsKey(ADMIN, valid);
    forall spec | t.parse(spec).Ok?
      ensures Consistent(t.parse(spec).value, t.kind(spec), t.realms(spec))
    {
      TextAgreesWithAuthority(spec, valid);
      ParsedPathsAreRealms(spec, valid);
    }
  }

  predicate Admitted(g: Gov, who: Caller) {
    g.authority.Admits(who.addr, who.path)
  }

  predicate Proposable(spec: string, t: Texts) {
    t.parse(spec).Ok? && (t.kind(spec) == "addr" || DAO_PATH in t.realms(spec))
  }

  predicate Accepted(g: Gov, c: Call, t: Texts) {
    && Admitted(g, c.who)
    && match c.op
       case Propose(spec) => Proposable(spec, t)
       case Execute =>
         g.pending.Some? && g.pending.value.readyAt <= c.now && t.parse(g.pending.value.spec).Ok? && !g.frozen
       case Cancel => g.pending.Some?
       case Freeze => g.authority.Realms?
  }

  /** An accepted call's effect; a refused one leaves everything. */
  function After(g: Gov, c: Call, t: Texts): Gov {
    if !Accepted(g, c, t) then g
    else
      match c.op
      case Propose(spec) => g.(pending := Some(Pending(spec, c.now + TIMELOCK)))
      case Execute =>
        var spec := g.pending.value.spec;
        g.(authority := t.parse(spec).value, authSpec := spec, pending := None)
      case Cancel => g.(pending := None)
      case Freeze => g.(frozen := true)
  }

  /**
   * The text kept beside the proxy describes its authority; an authority that
   * names realms includes the DAO; a frozen one is realms only.
   */
  ghost predicate Governed(g: Gov, t: Texts) {
    && t.parse(g.authSpec) == Ok(g.authority)
    && (!g.authority.Addr? ==> DAO_PATH in g.authority.Paths())
    && (g.pending.Some? ==> Proposable(g.pending.value.spec, t))
    && (g.frozen ==> g.authority.Realms?)
  }

  lemma AfterGoverned(g: Gov, c: Call, t: Texts)
    requires t.Agree() && Governed(g, t)
    ensures Governed(After(g, c, t), t)
  {
    if g.pending.Some? {
      var spec := g.pending.value.spec;
      assert Consistent(t.parse(spec).value, t.kind(spec), t.realms(spec));
    }
  }

  /** A caller's address is recognised when it holds the key or is the package address of a granted realm. */
  ghost predicate Recognised(a: Authority, addr: string, packageAddress: string -> string) {
    match a
    case Addr(key) => addr == key
    case Realms(paths) => exists p :: p in paths && packageAddress(p) == addr
    case AnyOf(key, paths) => addr == key || exists p :: p in paths && packageAddress(p) == addr
  }

  /** Whoever the proxy admits is recognised by its address alone. */
  lemma AdmittedIsRecognised(g: Gov, who: Caller, packageAddress: string -> string, t: Texts)
    requires t.Agree() && Governed(g, t) && Admitted(g, who)
    requires who.path != "" ==> who.addr == packageAddress(who.path)
    ensures Recognised(g.authority, who.addr, packageAddress)
  {
    assert Consistent(g.authority, t.kind(g.authSpec), t.realms(g.authSpec));
  }

  // ---- the realm

  class Realm {
    const texts: Texts
    const packageAddress: string -> string
    // the proxy's authority and freeze
    var authority: Authority
    var frozen: bool
    // the realm's own variables
    var authSpec: string
    var pending: Option<Pending>

    constructor (valid: string -> bool, packageAddress: string -> string)
      requires valid(ADMIN)
      ensures texts == TextsOf(valid) && texts.Agree() && this.packageAddress == packageAddress
      ensures Snap() == Initial() && Governed(Snap(), texts)
    {
      this.texts, this.packageAddress := TextsOf(valid), packageAddress;
      authority, frozen, authSpec, pending := Addr(ADMIN), false, "addr:" + ADMIN, None;
      AuthSpecAgrees(valid);
    }

    function Snap(): Gov
      reads this
    {
      Gov(authority, frozen, authSpec, pending)
    }

    method ProposeAuthority(who: Caller, now: int, spec: string) returns (ok: bool, readyAt: int)
      modifies this`pending
      ensures ok <==> Accepted(old(Snap()), Call(who, now, Propose(spec)), texts)
      ensures Snap() == After(old(Snap()), Call(who, now, Propose(spec)), texts)
      ensures ok ==> pending == Some(Pending(spec, readyAt)) && readyAt == now + TIMELOCK
      ensures ok <==> && old(authority).Admits(who.addr, who.path) && texts.parse(spec).Ok?
                      && (texts.kind(spec) == "addr" || DAO_PATH in texts.realms(spec))
      ensures ok ==> readyAt == now + 7 * 24 * 3600
      ensures !ok ==> pending == old(pending)
    {
      ok, readyAt := false, 0;
      if !authority.Admits(who.addr, who.path) {
        return;
      }
      if texts.parse(spec).Err? {
        return;
      }
      if texts.kind(spec) != "addr" && DAO_PATH !in texts.realms(spec) {
        return;
      }
      readyAt := now + TIMELOCK;
      pending := Some(Pending(spec, readyAt));
      ok := true;
    }

    method ExecuteAuthority(who: Caller, now: int) returns (ok: bool)
      modifies this`pending, this`authority, this`authSpec
      ensures ok <==> Accepted(old(Snap()), Call(who, now, Execute), texts)
      ensures Snap() == After(old(Snap()), Call(who, now, Execute), texts)
      ensures ok <==> && old(pending).Some? && old(pending).value.readyAt <= now
                      && texts.parse(old(pending).value.spec).Ok?
                      && old(authority).Admits(who.addr, who.path) && !frozen
      ensures ok ==> && Ok(authority) == texts.parse(old(pending).value.spec)
                     && authSpec == old(pending).value.spec && pending == None
      ensures !ok ==> Snap() == old(Snap())
    {
      if pending.None? {
        return false;
      }
      if now < pending.value.readyAt {
        return false;
      }
      var auth := texts.parse(pending.value.spec);
      if auth.Err? {
        return false;
      }
      var spec, was := pending.value.spec, pending;
      pending := None;
      ok := TransferAuthority(who, auth.value);
      if !ok {
        pending := was; // the refused transfer reverts the call
        return;
      }
      authSpec := spec;
    }

    /** The proxy's hand-over. */
    method TransferAuthority(who: Caller, auth: Authority) returns (ok: bool)
      modifies this`authority
      ensures ok <==> old(authority).Admits(who.addr, who.path) && !frozen
      ensures authority == if ok then auth else old(authority)
    {
      ok := authority.Admits(who.addr, who.path) && !frozen;
      if ok {
        authority := auth;
      }
    }

    method CancelAuthority(who: Caller, now: int) returns (ok: bool)
      modifies this`pending
      ensures ok <==> Accepted(old(Snap()), Call(who, now, Cancel), texts)
      ensures Snap() == After(old(Snap()), Call(who, now, Cancel), texts)
      ensures ok <==> old(authority).Admits(who.addr, who.path) && old(pending).Some?
      ensures pending == if ok then None else old(pending)
    {
      if !authority.Admits(who.addr, who.path) || pending.None? {
        return false;
      }
      pending := None;
      return true;
    }

    method FreezeRealm(who: Caller, now: int) returns (ok: bool)
      modifies this`frozen
      ensures ok <==> Accepted(old(Snap()), Call(who, now, Freeze), texts)
      ensures Snap() == After(old(Snap()), Call(who, now, Freeze), texts)
      ensures ok <==> old(authority).Admits(who.addr, who.path) && old(authority).Realms?
      ensures frozen <==> old(frozen) || ok
    {
      if !authority.Admits(who.addr, who.path) || !authority.Realms? {
        return false;
      }
      frozen := true;
      return true;
    }

    /** Reads the key off the proxy and the realms off the kept text. */
    method IsAuthority(addr: string) returns (r: bool)
      requires texts.Agree() && Governed(Snap(), texts)
      ensures r <==> Recognised(authority, addr, packageAddress)
    {
      assert Consistent(authority, texts.kind(authSpec), texts.realms(authSpec));
      if authority.Admits(addr, "") {
        return true;
      }
      var paths := texts.realms(authSpec);
      for k := 0 to |paths|
        invariant forall i :: 0 <= i < k ==> packageAddress(paths[i]) != addr
      {
        if packageAddress(paths[k]) == addr {
          assert paths[k] in authority.Paths();
          return true;
        }
      }
      return false;
    }
  }

  // ---- whole runs

  function Initial(): Gov {
    Gov(Addr(ADMIN), false, "addr:" + ADMIN, None)
  }

  /** A run from the start, under a clock that does not go back. */
  ghost predicate Run(gs: seq<Gov>, calls: seq<Call>, t: Texts) {
    && t.Agree() && |gs| == |calls| + 1 && gs[0] == Initial()
    && (forall i :: 0 <= i < |calls| ==> gs[i + 1] == After(gs[i], calls[i], t))
    && (forall i, j :: 0 <= i < j < |calls| ==> calls[i].now <= calls[j].now)
  }

  /** Always: a realm authority includes the DAO, so the DAO is admitted unless a single key governs. */
  lemma {:induction false} AlwaysGoverned(gs: seq<Gov>, calls: seq<Call>, t: Texts, i: nat)
    requires Run(gs, calls, t) && i <= |calls|
    ensures Governed(gs[i], t)
    ensures gs[i].authority.Addr? || forall addr :: Admitted(gs[i], Caller(addr, DAO_PATH))
  {
    if i > 0 {
      AlwaysGoverned(gs, calls, t, i - 1);
      AfterGoverned(gs[i - 1], calls[i - 1], t);
    }
  }

  /** Once frozen, the authority is realms only, includes the DAO and never changes. */
  lemma {:induction false} FrozenForGood(gs: seq<Gov>, calls: seq<Call>, t: Texts, i: nat, j: nat)
    requires Run(gs, calls, t) && i <= j <= |calls| && gs[i].frozen
    ensures gs[j].frozen && gs[j].authority == gs[i].authority
    ensures gs[j].authority.Realms? && DAO_PATH in gs[j].authority.paths
  {
    AlwaysGoverned(gs, calls, t, j);
    if i < j {
      FrozenForGood(gs, calls, t, i, j - 1);
      assert gs[j] == After(gs[j - 1], calls[j - 1], t);
    }
  }

  /** Calls that settle or replace a pending transfer. */
  predicate TouchesPending(op: Op) {
    op.Propose? || op.Execute? || op.Cancel?
  }

  /** Call j proposed what is pending at i, and nothing has touched it or the authority since. */
  ghost predicate ProposedAt(gs: seq<Gov>, calls: seq<Call>, t: Texts, j: int, i: int)
    requires Run(gs, calls, t) && 0 <= i <= |calls|
  {
    && 0 <= j < i && calls[j].op.Propose? && Accepted(gs[j], calls[j], t)
    && gs[i].pending == Some(Pending(calls[j].op.spec, calls[j].now + TIMELOCK))
    && (forall k :: j <= k <= i ==> gs[k].authority == gs[i].authority)
    && (forall k :: j < k < i ==> !(Accepted(gs[k], calls[k], t) && TouchesPending(calls[k].op)))
  }

  lemma {:induction false} PendingWasProposed(gs: seq<Gov>, calls: seq<Call>, t: Texts, i: nat) returns (j: int)
    requires Run(gs, calls, t) && i <= |calls| && gs[i].pending.Some?
    ensures ProposedAt(gs, calls, t, j, i)
  {
    var c, g := calls[i - 1], gs[i - 1];
    assert gs[i] == After(g, c, t);
    if c.op.Propose? && Accepted(g, c, t) {
      j := i - 1;
    } else {
      j := PendingWasProposed(gs, calls, t, i - 1);
    }
  }

  /**
   * Every change of authority was proposed at least the timelock earlier by a
   * caller of the same authority that executes it, with no other proposal,
   * cancellation or transfer in between, and installs what was proposed.
   */
  lemma TransferWasProposed(gs: seq<Gov>, calls: seq<Call>, t: Texts, i: nat) returns (j: int)
    requires Run(gs, calls, t) && i < |calls|
    requires gs[i + 1].authority != gs[i].authority || (calls[i].op.Execute? && Accepted(gs[i], calls[i], t))
    ensures ProposedAt(gs, calls, t, j, i) && calls[i].op.Execute?
    ensures calls[j].now + TIMELOCK <= calls[i].now
    ensures Admitted(gs[i], calls[j].who) && Admitted(gs[i], calls[i].who)
    ensures t.parse(calls[j].op.spec) == Ok(gs[i + 1].authority) && gs[i + 1].authSpec == calls[j].op.spec
  {
    assert gs[i + 1] == After(gs[i], calls[i], t);
    j := PendingWasProposed(gs, calls, t, i);
    assert gs[j].authority == gs[i].authority;
  }

  /** Two transfers are at least the timelock apart, and the first at least that long after the run began. */
  lemma TransfersSpaced(gs: seq<Gov>, calls: seq<Call>, t: Texts, h: nat, i: nat)
    requires Run(gs, calls, t) && h < i < |calls|
    requires calls[i].op.Execute? && Accepted(gs[i], calls[i], t)
    ensures calls[h].op.Execute? && Accepted(gs[h], calls[h], t) ==> calls[h].now + TIMELOCK <= calls[i].now
    ensures calls[0].now + TIMELOCK <= calls[i].now
  {
    var j := TransferWasProposed(gs, calls, t, i);
    assert j > 0 ==> calls[0].now <= calls[j].now;
  }
}
