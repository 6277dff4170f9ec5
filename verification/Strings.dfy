// The byte-level string operations the modelled programs take from their
// standard library.
module Strings {

  /** strings.IndexByte: the first position of c, or -1. */
  function IndexByte(s: string, c: char): (i: int)
    ensures -1 <= i < |s|
    ensures 0 <= i ==> s[i] == c && c !in s[..i]
    ensures i == -1 ==> c !in s
  {
    if s == [] then -1
    else if s[0] == c then 0
    else
      var i := IndexByte(s[1..], c);
      if i == -1 then -1 else assert s[..i + 1] == [s[0]] + s[1..][..i]; i + 1
  }

  lemma FirstIndex(a: string, c: char, b: string)
    requires c !in a
    ensures IndexByte(a + [c] + b, c) == |a|
  {
    var s := a + [c] + b;
    var i := IndexByte(s, c);
    assert s[|a|] == c;
  }

  /** A field that cannot hold the separator ends at the first separator. */
  lemma FirstFieldUnique(a: string, x: string, b: string, y: string, sep: char)
    requires sep !in a && sep !in b
    requires a + [sep] + x == b + [sep] + y
    ensures a == b && x == y
  {
    var s := a + [sep] + x;
    FirstIndex(a, sep, x);
    FirstIndex(b, sep, y);
    assert a == s[..|a|] && b == s[..|b|];
    assert x == s[|a| + 1..] && y == s[|b| + 1..];
  }

  /** A field that cannot hold the separator starts after the last separator. */
  lemma LastFieldUnique(x: string, a: string, y: string, b: string, sep: char)
    requires sep !in a && sep !in b
    requires x + [sep] + a == y + [sep] + b
    ensures a == b && x == y
  {
    var s := x + [sep] + a;
    var t := y + [sep] + b;
    assert s[|x|] == sep && t[|y|] == sep;
    assert x == s[..|x|] && y == t[..|y|];
    assert a == s[|x| + 1..] && b == t[|y| + 1..];
  }

  /** The white space of unicode.IsSpace. */
  predicate IsSpace(c: char) {
    var n := c as int;
    || c == ' ' || '\t' <= c <= '\r' || n == 0x85 || n == 0xA0
    || n == 0x1680 || 0x2000 <= n <= 0x200A || n == 0x2028 || n == 0x2029 || n == 0x202F || n == 0x205F || n == 0x3000
  }

  function TrimLeft(s: string): string {
    if s != "" && IsSpace(s[0]) then TrimLeft(s[1..]) else s
  }

  function TrimRight(s: string): string {
    if s != "" && IsSpace(s[|s| - 1]) then TrimRight(s[..|s| - 1]) else s
  }

  function TrimSpace(s: string): string {
    TrimRight(TrimLeft(s))
  }

  /** strings.Split on a one-character separator. */
  function Split(s: string, sep: char): seq<string>
    decreases |s|
  {
    var i := IndexByte(s, sep);
    if i == -1 then [s] else [s[..i]] + Split(s[i + 1..], sep)
  }

  predicate NoOuterSpace(s: string) {
    s == "" || (!IsSpace(s[0]) && !IsSpace(s[|s| - 1]))
  }

  lemma TrimIdentity(s: string)
    requires NoOuterSpace(s)
    ensures TrimSpace(s) == s
  {
  }

  predicate AllSpace(s: string) {
    forall i :: 0 <= i < |s| ==> IsSpace(s[i])
  }

  lemma {:induction false} TrimLeftExactly(s: string) returns (k: nat)
    ensures k <= |s| && TrimLeft(s) == s[k..] && AllSpace(s[..k])
    ensures TrimLeft(s) == "" || !IsSpace(TrimLeft(s)[0])
  {
    k := 0;
    if s != "" && IsSpace(s[0]) {
      var j := TrimLeftExactly(s[1..]);
      k := j + 1;
      assert forall i :: 0 < i < k ==> s[i] == s[1..][..j][i - 1];
    }
  }

  lemma {:induction false} TrimRightExactly(s: string) returns (k: nat)
    ensures k <= |s| && TrimRight(s) == s[..k] && AllSpace(s[k..])
    ensures TrimRight(s) == "" || !IsSpace(TrimRight(s)[|TrimRight(s)| - 1])
  {
    k := |s|;
    if s != "" && IsSpace(s[|s| - 1]) {
      var n := |s| - 1;
      k := TrimRightExactly(s[..n]);
      assert forall i :: k <= i < n ==> s[i] == s[..n][k..][i - k];
    }
  }

  /** Trimming takes the space off both ends and nothing else. */
  lemma TrimExactly(s: string) returns (a: string, b: string)
    ensures s == a + TrimSpace(s) + b && AllSpace(a) && AllSpace(b) && NoOuterSpace(TrimSpace(s))
  {
    hide TrimLeft, TrimRight, IsSpace, AllSpace;
    var i := TrimLeftExactly(s);
    var left := s[i..];
    var j := TrimRightExactly(left);
    a, b := s[..i], left[j..];
    assert s == a + (left[..j] + b);
    assert (a + left[..j]) + b == a + (left[..j] + b);
    assert left[..j] != "" ==> left[..j][0] == left[0];
  }
}
