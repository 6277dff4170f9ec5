// agent/adapters.go, splitPath and ExtractJSONPath: a dotted path with [n]
// indexes, and the walk along it through a JSON tree. Extraction along the
// printed path of a leaf finds that leaf.
module JsonPath {
  import opened Basics
  import opened Decimal
  import opened Strings

  // ---- splitting a path

  /** What one pass over a dot-free part takes off its front, and what it leaves. */
  datatype Cut = Cut(steps: seq<string>, rest: string)

  function CutPart(part: string): (c: Cut)
    requires part != ""
    ensures |c.rest| < |part|
  {
    var i := IndexByte(part, '[');
    if i < 0 then Cut([part], "")
    else
      var name := if i > 0 then [part[..i]] else [];
      var j := IndexByte(part, ']');
      if j < i then Cut(name + [part[i + 1..]], "")
      else assert i != j; Cut(name + [part[i + 1..j]], part[j + 1..])
  }

  /** The first of its kind. */
  predicate IsFirst(s: string, c: char, i: nat)
    requires i < |s|
  {
    s[i] == c && c !in s[..i]
  }

  /** What one pass takes off a part with an index: the name before it, if any, and the text in the brackets. */
  lemma CutClosed(part: string, i: nat, j: nat)
    requires i < j < |part| && IsFirst(part, '[', i) && IsFirst(part, ']', j)
    ensures CutPart(part) == Cut((if i == 0 then [] else [part[..i]]) + [part[i + 1..j]], part[j + 1..])
  {
    FirstIs(part, '[', i);
    FirstIs(part, ']', j);
    hide IndexByte, IsFirst;
  }

  /** Where the bracket is not closed, or a stray one comes before it, the index takes all that is left. */
  lemma CutUnclosed(part: string, i: nat)
    requires i < |part| && IsFirst(part, '[', i) && (']' !in part || ']' in part[..i])
    ensures CutPart(part) == Cut((if i == 0 then [] else [part[..i]]) + [part[i + 1..]], "")
  {
    FirstIs(part, '[', i);
    BeforeOrNot(part, ']', i);
    hide IndexByte, IsFirst;
  }

  lemma FirstIs(s: string, c: char, i: nat)
    requires i < |s| && IsFirst(s, c, i)
    ensures IndexByte(s, c) == i
  {
    FirstIndex(s[..i], c, s[i + 1..]);
    assert s == s[..i] + [c] + s[i + 1..];
  }

  lemma BeforeOrNot(s: string, c: char, i: nat)
    requires i < |s| && (c !in s || c in s[..i])
    ensures IndexByte(s, c) < i
  {
    if c in s[..i] {
      var k :| 0 <= k < i && s[..i][k] == c;
      assert s[k] == c;
      var j := IndexByte(s, c);
      assert 0 <= j && forall m :: 0 <= m < j ==> s[..j][m] == s[m];
    }
  }

  /** The steps of one dot-free part: a name and the indexes after it. */
  function PartSteps(part: string): seq<string>
    decreases |part|
  {
    if part == "" then [] else CutPart(part).steps + PartSteps(CutPart(part).rest)
  }

  lemma FirstCut(part: string)
    requires part != ""
    ensures PartSteps(part) == CutPart(part).steps + PartSteps(CutPart(part).rest)
  {
  }

  /** The steps of all dot-separated parts. */
  function Parts(text: string): seq<string> {
    Collect(Split(text, '.'), PartSteps)
  }

  function SplitPath(path: string): seq<string> {
    Parts(TrimSpace(path))
  }

  /** One pass over the front of a part; an unclosed bracket takes all that is left. */
  method CutOff(part: string) returns (steps: seq<string>, rest: string)
    requires part != ""
    ensures Cut(steps, rest) == CutPart(part)
  {
    steps := [];
    var i := IndexByte(part, '[');
    if i < 0 {
      return [part], "";
    }
    if i > 0 {
      steps := steps + [part[..i]];
    }
    var j := IndexByte(part, ']');
    if j < i {
      return steps + [part[i + 1..]], "";
    }
    assert i != j;
    return steps + [part[i + 1..j]], part[j + 1..];
  }

  method SplitPathSteps(path: string) returns (out: seq<string>)
    ensures out == SplitPath(path)
  {
    out := [];
    var parts := Split(TrimSpace(path), '.');
    for p := 0 to |parts|
      invariant out == Collect(parts[..p], PartSteps)
    {
      CollectStep(parts, p, PartSteps);
      ghost var all := out + PartSteps(parts[p]);
      var part := parts[p];
      while part != ""
        invariant out + PartSteps(part) == all
        decreases |part|
      {
        hide PartSteps, CutPart;
        var steps, rest := CutOff(part);
        FirstCut(part);
        Associate(out, steps, PartSteps(rest));
        out := out + steps;
        part := rest;
      }
    }
    assert parts[..|parts|] == parts;
  }

  // ---- JSON and the walk

  datatype Json =
    | Null
    | Bool(b: bool)
    | Num(text: string)
    | Str(s: string)
    | Arr(items: seq<Json>)
    | Obj(fields: map<string, Json>)

  datatype PathError = NoKey(step: string) | BadIndex(step: string) | CannotDescend(step: string) | NullLeaf | NotScalar

  /** strconv.Atoi, without its range error: no list is that long. */
  function Atoi(s: string): Option<int> {
    var sign := s != "" && (s[0] == '-' || s[0] == '+');
    var digits := if sign then s[1..] else s;
    if digits == "" || !AllDigits(digits) then None
    else
      var n: int := NatOf(digits);
      Some(if sign && s[0] == '-' then -n else n)
  }

  function Descend(v: Json, step: string): Result<Json, PathError> {
    match v
    case Obj(fields) => if step in fields then Ok(fields[step]) else Err(NoKey(step))
    case Arr(items) =>
      var idx := Atoi(step);
      if idx.None? || idx.value < 0 || idx.value >= |items| then Err(BadIndex(step)) else Ok(items[idx.value])
    case _ => Err(CannotDescend(step))
  }

  function Walk(v: Json, steps: seq<string>): Result<Json, PathError> {
    if steps == [] then Ok(v)
    else
      match Descend(v, steps[0])
      case Ok(next) => Walk(next, steps[1..])
      case Err(e) => Err(e)
  }

  function LeafText(v: Json): Result<string, PathError> {
    match v
    case Num(text) => Ok(text)
    case Str(s) => Ok(s)
    case Bool(b) => Ok(if b then "true" else "false")
    case Null => Err(NullLeaf)
    case _ => Err(NotScalar)
  }

  function Extract(v: Json, path: string): Result<string, PathError> {
    match Walk(v, SplitPath(path))
    case Ok(leaf) => LeafText(leaf)
    case Err(e) => Err(e)
  }

  method ExtractJSONPath(body: Json, path: string) returns (r: Result<string, PathError>)
    ensures r == Extract(body, path)
  {
    var v := body;
    var steps := SplitPathSteps(path);
    for k := 0 to |steps|
      invariant Walk(body, steps) == Walk(v, steps[k..])
    {
      var step := steps[k];
      assert steps[k..][1..] == steps[k + 1..];
      match v {
        case Obj(fields) =>
          if step !in fields {
            return Err(NoKey(step));
          }
          v := fields[step];
        case Arr(items) =>
          var idx := Atoi(step);
          if idx.None? || idx.value < 0 || idx.value >= |items| {
            return Err(BadIndex(step));
          }
          v := items[idx.value];
        case _ =>
          return Err(CannotDescend(step));
      }
    }
    r := LeafText(v);
  }

  /** The value has no child under this step text: no such field, no such index, or no children at all. */
  predicate Childless(v: Json, step: string, e: PathError) {
    match v
    case Obj(fields) => step !in fields && e == NoKey(step)
    case Arr(items) => (forall n: nat :: n < |items| ==> Atoi(step) != Some(n)) && e == BadIndex(step)
    case _ => e == CannotDescend(step)
  }

  /** The value has this child under this step text. */
  predicate Child(v: Json, step: string, w: Json) {
    (v.Obj? && step in v.fields && v.fields[step] == w)
    || (v.Arr? && exists n: nat :: n < |v.items| && Atoi(step) == Some(n) && v.items[n] == w)
  }

  /** Step i of the walk passes from a value to its child. */
  predicate Passes(v: Json, steps: seq<string>, i: nat)
    requires i < |steps|
  {
    var w, x := Walk(v, steps[..i]), Walk(v, steps[..i + 1]);
    w.Ok? && x.Ok? && Child(w.value, steps[i], x.value)
  }

  /** Step i finds no child, with this error. */
  predicate Fails(v: Json, steps: seq<string>, i: nat, e: PathError)
    requires i < |steps|
  {
    var w := Walk(v, steps[..i]);
    w.Ok? && Childless(w.value, steps[i], e)
  }

  /**
   * A walk passes from child to child, and fails at the first step text under
   * which the value reached so far has none.
   */
  lemma {:induction false} WalkExactly(v: Json, steps: seq<string>, k: nat)
    requires k <= |steps|
    ensures Walk(v, steps[..k]).Ok? ==> forall i :: 0 <= i < k ==> Passes(v, steps, i)
    ensures Walk(v, steps[..k]).Err? ==> exists i :: 0 <= i < k && Fails(v, steps, i, Walk(v, steps[..k]).error)
    decreases k
  {
    if 0 < k {
      hide Walk, Passes, Fails;
      WalkExactly(v, steps, k - 1);
      WalkOneMore(v, steps, k - 1);
    }
  }

  lemma WalkOneMore(v: Json, steps: seq<string>, k: nat)
    requires k < |steps|
    ensures var x := Walk(v, steps[..k + 1]);
      if Walk(v, steps[..k]).Err? then x == Walk(v, steps[..k])
      else if x.Ok? then Passes(v, steps, k) else Fails(v, steps, k, x.error)
  {
    assert steps[..k + 1] == steps[..k] + [steps[k]];
    WalkThen(v, steps[..k], steps[k]);
    hide Walk;
  }

  lemma {:induction false} WalkThen(v: Json, steps: seq<string>, step: string)
    ensures Walk(v, steps + [step]) == match Walk(v, steps)
                                       case Ok(w) => Descend(w, step)
                                       case Err(e) => Err(e)
    decreases |steps|
  {
    if steps == [] {
      assert ([] + [step])[1..] == [];
    } else {
      assert (steps + [step])[1..] == steps[1..] + [step];
      match Descend(v, steps[0])
      case Ok(next) => WalkThen(next, steps[1..], step);
      case Err(_) =>
    }
  }

  // ---- typed paths and their text

  datatype Step = Key(name: string) | Index(n: nat)

  predicate CleanKey(k: string) {
    k != "" && '.' !in k && '[' !in k && ']' !in k
  }

  predicate Clean(steps: seq<Step>) {
    forall i :: 0 <= i < |steps| && steps[i].Key? ==> CleanKey(steps[i].name)
  }

  function StepText(s: Step): string {
    if s.Key? then s.name else Digits(s.n)
  }

  function StepTexts(steps: seq<Step>): seq<string> {
    if steps == [] then [] else [StepText(steps[0])] + StepTexts(steps[1..])
  }

  /** A printed index. */
  function Item(n: nat): string {
    "[" + Digits(n) + "]"
  }

  /** The printed steps after the first. */
  function Tail(steps: seq<Step>): string {
    if steps == [] then ""
    else (if steps[0].Key? then "." + steps[0].name else Item(steps[0].n)) + Tail(steps[1..])
  }

  /** The path as it is written: data[0].price. */
  function Render(steps: seq<Step>): string {
    if steps != [] && steps[0].Key? then steps[0].name + Tail(steps[1..]) else Tail(steps)
  }

  /** The value at a typed path: names into objects, numbers into lists. */
  function At(v: Json, steps: seq<Step>): Option<Json> {
    if steps == [] then Some(v)
    else
      match (steps[0], v)
      case (Key(k), Obj(fields)) => if k in fields then At(fields[k], steps[1..]) else None
      case (Index(n), Arr(items)) => if n < |items| then At(items[n], steps[1..]) else None
      case _ => None
  }

  // ---- the leading indexes of a path

  function Brackets(steps: seq<Step>): string {
    if steps == [] || steps[0].Key? then "" else Item(steps[0].n) + Brackets(steps[1..])
  }

  /** How many indexes come before the next name. */
  function Lead(steps: seq<Step>): (n: nat)
    ensures n <= |steps| && (n < |steps| ==> steps[n].Key?)
  {
    if steps == [] || steps[0].Key? then 0 else 1 + Lead(steps[1..])
  }

  lemma LeadStep(steps: seq<Step>)
    requires steps != [] && steps[0].Index?
    ensures steps[Lead(steps)..] == steps[1..][Lead(steps[1..])..]
    ensures StepTexts(steps[..Lead(steps)]) == [StepText(steps[0])] + StepTexts(steps[1..][..Lead(steps[1..])])
  {
    assert steps[..Lead(steps)][1..] == steps[1..][..Lead(steps[1..])];
  }

  lemma {:induction false} TailSplits(steps: seq<Step>)
    ensures Tail(steps) == Brackets(steps) + More(steps[Lead(steps)..])
  {
    if steps != [] && steps[0].Index? {
      LeadStep(steps);
      TailSplits(steps[1..]);
      var rest := steps[Lead(steps)..];
      Associate(Item(steps[0].n), Brackets(steps[1..]), More(rest));
    } else {
      assert steps[0..] == steps;
      if steps != [] {
        assert "." + steps[0].name + Tail(steps[1..]) == "." + (steps[0].name + Tail(steps[1..]));
      }
      assert "" + More(steps) == More(steps);
    }
  }

  lemma {:induction false} TextsSplit(steps: seq<Step>)
    ensures StepTexts(steps) == StepTexts(steps[..Lead(steps)]) + StepTexts(steps[Lead(steps)..])
  {
    if steps != [] && steps[0].Index? {
      LeadStep(steps);
      TextsSplit(steps[1..]);
    } else {
      assert steps[0..] == steps && steps[..0] == [];
    }
  }

  lemma {:induction false} BracketsHaveNoPoint(steps: seq<Step>)
    ensures '.' !in Brackets(steps)
    ensures Brackets(steps) != "" ==> Brackets(steps)[0] == '['
  {
    if steps != [] && steps[0].Index? {
      BracketsHaveNoPoint(steps[1..]);
    }
  }

  /** A name (or nothing), one printed index, and more. */
  lemma CutIndexed(name: string, n: nat, more: string)
    requires '[' !in name && ']' !in name
    ensures var part := name + (Item(n) + more);
      part != "" && CutPart(part) == Cut((if name == "" then [] else [name]) + [Digits(n)], more)
  {
    hide CutPart, Digits;
    assert Item(n) == ['['] + Digits(n) + [']'];
    Associate(name, Item(n), more);
    Associate(name, ['['] + Digits(n), [']']);
    Associate(name, ['['], Digits(n));
    CutBracketed(name, Digits(n), more);
  }

  lemma CutBracketed(name: string, d: string, more: string)
    requires '[' !in name && ']' !in name && ']' !in d
    ensures CutPart(name + ['['] + d + [']'] + more) == Cut((if name == "" then [] else [name]) + [d], more)
  {
    var part := name + ['['] + d + [']'] + more;
    assert part == name + ['['] + (d + [']'] + more);
    FirstIndex(name, '[', d + [']'] + more);
    assert part == (name + ['['] + d) + [']'] + more;
    FirstIndex(name + ['['] + d, ']', more);
    var i, j := |name|, |name| + 1 + |d|;
    assert part[..i] == name && part[i + 1..j] == d && part[j + 1..] == more;
  }

  lemma PartPlain(name: string)
    requires name != "" && '[' !in name
    ensures PartSteps(name) == [name]
  {
  }

  lemma PartIndexed(name: string, n: nat, more: string)
    requires '[' !in name && ']' !in name
    ensures PartSteps(name + (Item(n) + more)) == (if name == "" then [] else [name]) + [Digits(n)] + PartSteps(more)
  {
    CutIndexed(name, n, more);
  }

  lemma ItemSteps(n: nat, more: string)
    ensures PartSteps(Item(n) + more) == [Digits(n)] + PartSteps(more)
  {
    hide PartSteps, Item, Digits;
    assert "" + (Item(n) + more) == Item(n) + more;
    PartIndexed("", n, more);
    assert [] + [Digits(n)] == [Digits(n)];
  }

  lemma {:induction false} BracketSteps(steps: seq<Step>)
    ensures PartSteps(Brackets(steps)) == StepTexts(steps[..Lead(steps)])
  {
    if steps != [] && steps[0].Index? {
      LeadStep(steps);
      BracketSteps(steps[1..]);
      ItemSteps(steps[0].n, Brackets(steps[1..]));
    } else {
      assert steps[..0] == [];
    }
  }

  lemma NamedIndexSteps(name: string, n: nat, more: string)
    requires name != "" && '[' !in name && ']' !in name
    ensures PartSteps(name + (Item(n) + more)) == [name] + PartSteps(Item(n) + more)
  {
    hide PartSteps, Item, Digits;
    ItemSteps(n, more);
    PartIndexed(name, n, more);
    Associate([name], [Digits(n)], PartSteps(more));
  }

  lemma NamedPartSteps(name: string, steps: seq<Step>)
    requires CleanKey(name)
    ensures PartSteps(name + Brackets(steps)) == [name] + PartSteps(Brackets(steps))
  {
    if steps != [] && steps[0].Index? {
      hide PartSteps, Item;
      var n, more := steps[0].n, Brackets(steps[1..]);
      NamedIndexSteps(name, n, more);
      assert Brackets(steps) == Item(n) + more;
    } else {
      PartPlain(name);
      assert name + "" == name;
    }
  }

  lemma SplitFirst(part: string, rest: string)
    requires '.' !in part
    ensures Split(part, '.') == [part]
    ensures Split(part + "." + rest, '.') == [part] + Split(rest, '.')
  {
    var s := part + "." + rest;
    assert s == part + ['.'] + rest;
    FirstIndex(part, '.', rest);
    assert s[..|part|] == part && s[|part| + 1..] == rest;
  }

  lemma PartsOfOne(part: string)
    requires '.' !in part
    ensures Parts(part) == PartSteps(part)
  {
    SplitFirst(part, "");
    assert Collect([part][1..], PartSteps) == [];
  }

  lemma PartsOfMore(part: string, rest: string)
    requires '.' !in part
    ensures Parts(part + "." + rest) == PartSteps(part) + Parts(rest)
  {
    SplitFirst(part, rest);
    var parts := Split(rest, '.');
    assert ([part] + parts)[1..] == parts;
  }

  /** What is printed after a part: nothing, or a point and the rest from its next name on. */
  function More(rest: seq<Step>): string
    requires rest != [] ==> rest[0].Key?
  {
    if rest == [] then "" else "." + (rest[0].name + Tail(rest[1..]))
  }

  lemma NamedText(name: string, steps: seq<Step>)
    ensures name + Tail(steps) == name + Brackets(steps) + More(steps[Lead(steps)..])
  {
    TailSplits(steps);
  }

  lemma NamedPart(name: string, steps: seq<Step>)
    requires CleanKey(name)
    ensures '.' !in name + Brackets(steps)
    ensures PartSteps(name + Brackets(steps)) == [name] + StepTexts(steps[..Lead(steps)])
  {
    BracketsHaveNoPoint(steps);
    NamedPartSteps(name, steps);
    BracketSteps(steps);
  }

  /** Regrouping only: the steps of the whole text, whatever function f reads them. */
  lemma Regroup(f: string -> seq<string>, name: string, steps: seq<Step>)
    requires var k := Lead(steps);
      f(name + Brackets(steps) + More(steps[k..])) == [name] + StepTexts(steps[..k]) + StepTexts(steps[k..])
    ensures f(name + Tail(steps)) == [name] + StepTexts(steps)
  {
    NamedText(name, steps);
    TextsSplit(steps);
  }

  /** Splitting what is printed from a name on gives the name and the steps after it. */
  lemma {:induction false} SplitNamed(name: string, steps: seq<Step>)
    requires CleanKey(name) && Clean(steps)
    ensures Parts(name + Tail(steps)) == [name] + StepTexts(steps)
    decreases |steps|, 1
  {
    NamedPart(name, steps);
    SplitRest(name + Brackets(steps), steps[Lead(steps)..]);
    Regroup(Parts, name, steps);
  }

  /** A part, then the rest. */
  lemma {:induction false} SplitRest(part: string, rest: seq<Step>)
    requires '.' !in part && Clean(rest) && (rest != [] ==> rest[0].Key?)
    ensures Parts(part + More(rest)) == PartSteps(part) + StepTexts(rest)
    decreases |rest|, 0
  {
    if rest == [] {
      PartsOfOne(part);
      assert part + "" == part;
    } else {
      var next := rest[0].name + Tail(rest[1..]);
      assert part + More(rest) == part + "." + next;
      PartsOfMore(part, next);
      SplitNamed(rest[0].name, rest[1..]);
    }
  }

  /** Splitting a printed path gives back its steps. */
  lemma SplitInvertsRender(steps: seq<Step>)
    requires Clean(steps) && NoOuterSpace(Render(steps))
    ensures SplitPath(Render(steps)) == StepTexts(steps)
  {
    TrimIdentity(Render(steps));
    if steps != [] && steps[0].Key? {
      SplitNamed(steps[0].name, steps[1..]);
    } else {
      var part, rest := Brackets(steps), steps[Lead(steps)..];
      TailSplits(steps);
      TextsSplit(steps);
      BracketSteps(steps);
      BracketsHaveNoPoint(steps);
      SplitRest(part, rest);
      assert Render(steps) == part + More(rest);
    }
  }

  lemma AtoiOfDigits(n: nat)
    ensures Atoi(Digits(n)) == Some(n)
  {
    NatOfDigits(n);
    assert IsDigit(Digits(n)[0]);
  }

  lemma {:induction false} WalkFollowsSteps(v: Json, steps: seq<Step>)
    requires At(v, steps).Some?
    ensures Walk(v, StepTexts(steps)) == Ok(At(v, steps).value)
    decreases steps
  {
    if steps != [] {
      assert StepTexts(steps)[1..] == StepTexts(steps[1..]);
      match (steps[0], v) {
        case (Key(k), Obj(fields)) =>
          WalkFollowsSteps(fields[k], steps[1..]);
        case (Index(n), Arr(items)) =>
          AtoiOfDigits(n);
          WalkFollowsSteps(items[n], steps[1..]);
      }
    }
  }

  /**
   * Extraction along the printed path of any value gives that value's text:
   * every number, string and boolean leaf is found, nulls and containers are
   * reported as such.
   */
  lemma ExtractInvertsRender(v: Json, steps: seq<Step>)
    requires Clean(steps) && NoOuterSpace(Render(steps)) && At(v, steps).Some?
    ensures Extract(v, Render(steps)) == match At(v, steps).value
                                         case Num(text) => Ok(text)
                                         case Str(s) => Ok(s)
                                         case Bool(b) => Ok(if b then "true" else "false")
                                         case Null => Err(NullLeaf)
                                         case Arr(_) => Err(NotScalar)
                                         case Obj(_) => Err(NotScalar)
  {
    SplitInvertsRender(steps);
    WalkFollowsSteps(v, steps);
  }
}
