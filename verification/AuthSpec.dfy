// gno.land/p/clockwork/gnoracle/authspec/v0/authspec.gno: one-line authority
// descriptions. Three functions read the same text separately; what they say
// of it agrees.
module AuthSpec {
  import opened Basics
  import opened Strings

  /** The authority a description stands for. */
  datatype Authority = Addr(key: string) | Realms(paths: seq<string>) | AnyOf(key: string, paths: seq<string>) {
    /** The realms it admits, and whether it admits a caller: a user has no path. */
    function Paths(): seq<string> {
      if Addr? then [] else paths
    }

    predicate Admits(addr: string, path: string) {
      (!Realms? && key == addr) || path in Paths()
    }
  }

  datatype Error = NoKind | UnknownKind | NoBar | BadAddress | BadPath | NoPaths

  const REALMS := "gno.land/r/"

  /** strings.Cut on a one-character separator. */
  datatype Halves = Halves(before: string, after: string, found: bool)

  function Cut(s: string, sep: char): Halves {
    var i := IndexByte(s, sep);
    if i == -1 then Halves(s, "", false) else Halves(s[..i], s[i + 1..], true)
  }

  /** The prefix test of a realm path. */
  predicate IsRealm(path: string) {
    REALMS <= path
  }

  function Addresses(s: string, valid: string -> bool): Result<string, Error> {
    if valid(TrimSpace(s)) then Ok(TrimSpace(s)) else Err(BadAddress)
  }

  /** The paths of a list of fields; empty ones do not count. */
  function PathsOf(fields: seq<string>): Result<seq<string>, Error> {
    if fields == [] then Ok([]) else NextPath(PathsOf(fields[..|fields| - 1]), TrimSpace(fields[|fields| - 1]))
  }

  function NextPath(init: Result<seq<string>, Error>, p: string): Result<seq<string>, Error> {
    if init.Err? || p == "" then init
    else if !IsRealm(p) then Err(BadPath)
    else Ok(init.value + [p])
  }

  function ListOf(s: string): (r: Result<seq<string>, Error>)
    ensures r.Ok? ==> r.value != []
  {
    var paths := PathsOf(Split(s, ','));
    if paths.Ok? && paths.value == [] then Err(NoPaths) else paths
  }

  /** What a field of a list contributes: its text without outer space, unless that is empty. */
  function Named(field: string): seq<string> {
    if TrimSpace(field) == "" then [] else [TrimSpace(field)]
  }

  predicate AllRealms(paths: seq<string>) {
    forall i :: 0 <= i < |paths| ==> IsRealm(paths[i])
  }

  /** A list is refused exactly for a named path that is no realm's, or for naming none; else it is what is named. */
  lemma ListExactly(s: string)
    ensures var named := Collect(Split(s, ','), Named);
      ListOf(s) == if !AllRealms(named) then Err(BadPath) else if named == [] then Err(NoPaths) else Ok(named)
  {
    PathsAreNamed(Split(s, ','));
  }

  lemma {:induction false} PathsAreNamed(fields: seq<string>)
    ensures var named := Collect(fields, Named);
      PathsOf(fields) == if AllRealms(named) then Ok(named) else Err(BadPath)
  {
    if fields == [] {
      assert Collect(fields, Named) == [];
    } else {
      var n := |fields| - 1;
      PathsAreNamed(fields[..n]);
      assert fields == fields[..n] + [fields[n]];
      CollectAppend(fields[..n], fields[n], Named);
      var init, p := Collect(fields[..n], Named), TrimSpace(fields[n]);
      RealmsAdd(init, Named(fields[n]));
      if p == "" {
        assert init + [] == init;
      } else {
        assert Named(fields[n]) == [p] && (AllRealms([p]) <==> IsRealm([p][0]));
      }
    }
  }

  lemma RealmsAdd(a: seq<string>, b: seq<string>)
    ensures AllRealms(a + b) <==> AllRealms(a) && AllRealms(b)
  {
    if AllRealms(a + b) {
      assert forall i :: 0 <= i < |a| ==> a[i] == (a + b)[i];
      assert forall i :: 0 <= i < |b| ==> b[i] == (a + b)[|a| + i];
    }
  }

  /** The loop over the fields of a path list. */
  method ParsePaths(s: string) returns (r: Result<seq<string>, Error>)
    ensures r == ListOf(s)
    ensures var named := Collect(Split(s, ','), Named);
      r == if !AllRealms(named) then Err(BadPath) else if named == [] then Err(NoPaths) else Ok(named)
  {
    ListExactly(s);
    var paths: seq<string> := [];
    var fields := Split(s, ',');
    for k := 0 to |fields|
      invariant PathsOf(fields[..k]) == Ok(paths)
    {
      PathsStep(fields, k);
      var p := TrimSpace(fields[k]);
      if p == "" {
        continue;
      }
      if !IsRealm(p) {
        BadFieldStays(fields, k + 1);
        return Err(BadPath);
      }
      paths := paths + [p];
    }
    assert fields[..|fields|] == fields;
    if |paths| == 0 {
      return Err(NoPaths);
    }
    return Ok(paths);
  }

  lemma PathsStep(fields: seq<string>, k: nat)
    requires k < |fields|
    ensures PathsOf(fields[..k + 1]) == NextPath(PathsOf(fields[..k]), TrimSpace(fields[k]))
  {
    assert fields[..k + 1][..k] == fields[..k];
  }

  lemma {:induction false} BadFieldStays(fields: seq<string>, k: nat)
    requires k <= |fields| && PathsOf(fields[..k]) == Err(BadPath)
    ensures PathsOf(fields) == Err(BadPath)
    decreases |fields|
  {
    if k == |fields| {
      assert fields[..k] == fields;
    } else {
      var n := |fields| - 1;
      assert fields[..n][..k] == fields[..k];
      BadFieldStays(fields[..n], k);
    }
  }

  function Parse(spec: string, valid: string -> bool): Result<Authority, Error> {
    var c := Cut(TrimSpace(spec), ':');
    if !c.found then Err(NoKind)
    else if c.before == "addr" then
      match Addresses(c.after, valid)
      case Ok(a) => Ok(Addr(a))
      case Err(e) => Err(e)
    else if c.before == "realms" then
      match ListOf(c.after)
      case Ok(ps) => Ok(Realms(ps))
      case Err(e) => Err(e)
    else if c.before == "anyof" then KeyOrRealms(c.after, valid)
    else Err(UnknownKind)
  }

  function KeyOrRealms(body: string, valid: string -> bool): Result<Authority, Error> {
    var d := Cut(body, '|');
    if !d.found then Err(NoBar)
    else
      match (Addresses(d.before, valid), ListOf(d.after))
      case (Err(e), _) => Err(e)
      case (_, Err(e)) => Err(e)
      case (Ok(a), Ok(ps)) => Ok(AnyOf(a, ps))
  }

  /** The description's first word. */
  function KindOf(spec: string): string {
    var c := Cut(TrimSpace(spec), ':');
    if c.found then c.before else ""
  }

  /** The realm paths a description grants. */
  function RealmsOf(spec: string): seq<string> {
    var c := Cut(TrimSpace(spec), ':');
    if !c.found || c.before == "addr" then []
    else
      var d := Cut(c.after, '|');
      if c.before == "anyof" && !d.found then []
      else
        match ListOf(if c.before == "anyof" then d.after else c.after)
        case Ok(ps) => ps
        case Err(_) => []
  }

  /**
   * For every text that parses, the kind and the granted realms read off the
   * text are those of the authority it parses to.
   */
  lemma TextAgreesWithAuthority(spec: string, valid: string -> bool)
    requires Parse(spec, valid).Ok?
    ensures var a := Parse(spec, valid).value;
      && RealmsOf(spec) == a.Paths()
      && (KindOf(spec) == "addr" <==> a.Addr?)
      && (KindOf(spec) == "realms" <==> a.Realms?)
      && (KindOf(spec) == "anyof" <==> a.AnyOf?)
      && (a.Addr? <==> a.Paths() == [])
  {
    assert "addr" != "realms" && "addr" != "anyof" && |"realms"| != |"anyof"|;
  }

  /** An authority's realm paths are realm paths, so no user (the empty path) passes for a realm. */
  lemma ParsedPathsAreRealms(spec: string, valid: string -> bool)
    requires Parse(spec, valid).Ok?
    ensures forall p :: p in Parse(spec, valid).value.Paths() ==> IsRealm(p) && p != ""
  {
    TextAgreesWithAuthority(spec, valid);
    var c := Cut(TrimSpace(spec), ':');
    ListsRealms(c.after);
    ListsRealms(Cut(c.after, '|').after);
  }

  lemma ListsRealms(s: string)
    ensures ListOf(s).Ok? ==> forall p :: p in ListOf(s).value ==> IsRealm(p) && p != ""
  {
    PathsAreRealms(Split(s, ','));
  }

  lemma {:induction false} PathsAreRealms(fields: seq<string>)
    ensures PathsOf(fields).Ok? ==> forall p :: p in PathsOf(fields).value ==> IsRealm(p)
  {
    if fields != [] {
      PathsAreRealms(fields[..|fields| - 1]);
    }
  }

  /** A key: a valid address once outer space is taken off. */
  predicate NamesKey(text: string, key: string, valid: string -> bool) {
    TrimSpace(text) == key && valid(key)
  }

  /** A list: what it names are realm paths, and some. */
  predicate NamesPaths(text: string, paths: seq<string>) {
    paths == Collect(Split(text, ','), Named) && AllRealms(paths) && paths != []
  }

  /** The text ends a key at its first bar and lists paths after it. */
  predicate NamesBoth(text: string, i: nat, key: string, paths: seq<string>, valid: string -> bool)
    requires i < |text|
  {
    text[i] == '|' && '|' !in text[..i] && NamesKey(text[..i], key, valid) && NamesPaths(text[i + 1..], paths)
  }

  predicate Describes(text: string, a: Authority, valid: string -> bool) {
    match a
    case Addr(key) => "addr:" <= text && NamesKey(text[5..], key, valid)
    case Realms(paths) => "realms:" <= text && NamesPaths(text[7..], paths)
    case AnyOf(key, paths) =>
      "anyof:" <= text && exists i :: 0 <= i < |text| - 6 && NamesBoth(text[6..], i, key, paths, valid)
  }

  /** A text parses to an authority exactly when, without outer space, it describes it. */
  lemma ParseExactly(spec: string, valid: string -> bool, a: Authority)
    ensures Parse(spec, valid) == Ok(a) <==> Describes(TrimSpace(spec), a, valid)
  {
    hide TrimSpace, Split, Cut, ListOf, AllRealms, NamesBoth;
    var text := TrimSpace(spec);
    var body := Cut(text, ':').after;
    KindExactly(text, "addr");
    KindExactly(text, "realms");
    KindExactly(text, "anyof");
    match a {
      case Addr(_) =>
        hide KeyOrRealms;
      case Realms(_) =>
        hide KeyOrRealms, Addresses;
        ListExactly(body);
      case AnyOf(_, _) =>
        hide KeyOrRealms, Addresses;
        KeyOrRealmsExactly(body, valid, a);
    }
  }

  lemma KindExactly(text: string, kind: string)
    requires ':' !in kind
    ensures var c := Cut(text, ':');
      && (c.found && c.before == kind <==> kind + ":" <= text)
      && (kind + ":" <= text ==> c.after == text[|kind| + 1..])
  {
    if kind + ":" <= text {
      CutAt(kind, ':', text[|kind| + 1..]);
      assert text == kind + [':'] + text[|kind| + 1..];
    }
  }

  lemma KeyOrRealmsExactly(body: string, valid: string -> bool, a: Authority)
    requires a.AnyOf?
    ensures KeyOrRealms(body, valid) == Ok(a)
       <==> exists i :: 0 <= i < |body| && NamesBoth(body, i, a.key, a.paths, valid)
  {
    hide TrimSpace, Split, ListOf, AllRealms;
    var d := Cut(body, '|');
    ListExactly(d.after);
    if d.found {
      assert NamesBoth(body, |d.before|, a.key, a.paths, valid) <==> KeyOrRealms(body, valid) == Ok(a);
    }
    forall i | 0 <= i < |body| && NamesBoth(body, i, a.key, a.paths, valid)
      ensures d.found && i == |d.before|
    {
      CutAt(body[..i], '|', body[i + 1..]);
      assert body == body[..i] + ['|'] + body[i + 1..];
    }
  }

  // ---- the documented form reads back

  function Joined(paths: seq<string>): string {
    if paths == [] then ""
    else if |paths| == 1 then paths[0]
    else paths[0] + "," + Joined(paths[1..])
  }

  function Text(a: Authority): string {
    match a
    case Addr(key) => "addr:" + key
    case Realms(paths) => "realms:" + Joined(paths)
    case AnyOf(key, paths) => "anyof:" + key + "|" + Joined(paths)
  }

  /** Paths a list can hold: realm paths without commas or outer space. */
  predicate CleanPath(p: string) {
    IsRealm(p) && ',' !in p && NoOuterSpace(p)
  }

  predicate Clean(a: Authority, valid: string -> bool) {
    && (a.Realms? || (valid(a.key) && a.key != "" && NoOuterSpace(a.key) && '|' !in a.key))
    && (a.Addr? || AllClean(a.paths))
  }

  predicate AllClean(paths: seq<string>) {
    paths != [] && forall i :: 0 <= i < |paths| ==> CleanPath(paths[i])
  }

  lemma {:induction false} SplitJoined(paths: seq<string>)
    requires AllClean(paths)
    ensures Split(Joined(paths), ',') == paths
  {
    assert CleanPath(paths[0]);
    if |paths| == 1 {
      assert paths == [paths[0]];
    } else {
      assert AllClean(paths[1..]);
      SplitJoined(paths[1..]);
      var rest := Joined(paths[1..]);
      assert Joined(paths) == paths[0] + [','] + rest;
      SplitAt(paths[0], ',', rest);
    }
  }

  lemma SplitAt(a: string, sep: char, b: string)
    requires sep !in a
    ensures Split(a + [sep] + b, sep) == [a] + Split(b, sep)
  {
    FirstIndex(a, sep, b);
    assert (a + [sep] + b)[..|a|] == a && (a + [sep] + b)[|a| + 1..] == b;
  }

  /** A joined list ends in a character that is not space. */
  lemma {:induction false} JoinedEnds(paths: seq<string>)
    requires AllClean(paths)
    ensures Joined(paths) != "" && !IsSpace(Joined(paths)[|Joined(paths)| - 1])
  {
    assert CleanPath(paths[0]) && paths[0] != "";
    if |paths| > 1 {
      assert AllClean(paths[1..]);
      JoinedEnds(paths[1..]);
      var rest := Joined(paths[1..]);
      assert Joined(paths) == (paths[0] + ",") + rest;
      assert Joined(paths)[|Joined(paths)| - 1] == rest[|rest| - 1];
    }
  }

  lemma {:induction false} CleanPathsStay(paths: seq<string>)
    requires forall i :: 0 <= i < |paths| ==> CleanPath(paths[i])
    ensures PathsOf(paths) == Ok(paths)
  {
    if paths != [] {
      var n := |paths| - 1;
      assert CleanPath(paths[n]);
      TrimIdentity(paths[n]);
      CleanPathsStay(paths[..n]);
      assert paths == paths[..n] + [paths[n]];
    }
  }

  lemma CutAt(a: string, sep: char, b: string)
    requires sep !in a
    ensures Cut(a + [sep] + b, sep) == Halves(a, b, true)
  {
    FirstIndex(a, sep, b);
    assert (a + [sep] + b)[..|a|] == a && (a + [sep] + b)[|a| + 1..] == b;
  }

  /** A kind, a colon, and a body that does not end in space. */
  lemma KindCut(kind: string, body: string)
    requires kind != "" && ':' !in kind && !IsSpace(kind[0])
    requires body != "" && !IsSpace(body[|body| - 1])
    ensures Cut(TrimSpace(kind + ":" + body), ':') == Halves(kind, body, true)
  {
    var s := kind + [':'] + body;
    assert s[0] == kind[0] && s[|s| - 1] == body[|body| - 1];
    TrimIdentity(s);
    CutAt(kind, ':', body);
    assert s == kind + ":" + body;
  }

  lemma ListInvertsJoined(paths: seq<string>)
    requires AllClean(paths)
    ensures ListOf(Joined(paths)) == Ok(paths)
  {
    SplitJoined(paths);
    CleanPathsStay(paths);
  }

  lemma ParseInvertsKey(key: string, valid: string -> bool)
    requires valid(key) && key != "" && NoOuterSpace(key)
    ensures Parse("addr:" + key, valid) == Ok(Addr(key))
  {
    KindCut("addr", key);
    assert "addr" + ":" + key == "addr:" + key;
    assert Addresses(key, valid) == Ok(key) by {
      TrimIdentity(key);
    }
  }

  lemma RealmsBody(list: string, paths: seq<string>, valid: string -> bool)
    requires list != "" && !IsSpace(list[|list| - 1]) && ListOf(list) == Ok(paths)
    ensures Parse("realms:" + list, valid) == Ok(Realms(paths))
  {
    hide ListOf, TrimSpace, Cut;
    KindCut("realms", list);
    assert "realms" + ":" + list == "realms:" + list;
  }

  lemma AnyOfBody(key: string, list: string, paths: seq<string>, valid: string -> bool)
    requires valid(key) && NoOuterSpace(key) && '|' !in key
    requires list != "" && !IsSpace(list[|list| - 1]) && ListOf(list) == Ok(paths)
    ensures Parse("anyof:" + key + "|" + list, valid) == Ok(AnyOf(key, paths))
  {
    hide ListOf, TrimSpace, Cut;
    var body := key + ['|'] + list;
    assert body[|body| - 1] == list[|list| - 1];
    KindCut("anyof", body);
    assert "anyof" + ":" + body == "anyof:" + key + "|" + list;
    CutAt(key, '|', list);
    assert Addresses(key, valid) == Ok(key) by {
      TrimIdentity(key);
    }
  }

  /** A description in the documented form parses to what it describes. */
  lemma ParseInvertsText(a: Authority, valid: string -> bool)
    requires Clean(a, valid)
    ensures Parse(Text(a), valid) == Ok(a)
  {
    if a.Addr? {
      ParseInvertsKey(a.key, valid);
    } else {
      var list, paths := Joined(a.paths), a.paths;
      JoinedEnds(paths);
      ListInvertsJoined(paths);
      if a.Realms? {
        RealmsBody(list, paths, valid);
      } else {
        AnyOfBody(a.key, list, paths, valid);
      }
    }
  }
}
