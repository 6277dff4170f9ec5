// Shared vocabulary: optional values, results, and the 64-bit integers of the
// modelled programs.
module Basics {

  datatype Option<+T> = None | Some(value: T)

  datatype Result<+T, +E> = Ok(value: T) | Err(error: E)

  type pos = n: nat | 0 < n witness 1

  const MIN_INT64: int := -0x8000_0000_0000_0000
  const MAX_INT64: int := 0x7FFF_FFFF_FFFF_FFFF

  predicate IsInt64(x: int) {
    MIN_INT64 <= x <= MAX_INT64
  }

  /** Two's complement reduction of a mathematical integer to an int64. */
  function Wrap64(x: int): (r: int)
    ensures IsInt64(r)
    ensures IsInt64(x) ==> r == x
    ensures MAX_INT64 < x <= 2 * MAX_INT64 ==> r < 0
  {
    if IsInt64(x) then x else (x - MIN_INT64) % 0x1_0000_0000_0000_0000 + MIN_INT64
  }

  function Abs(x: int): nat {
    if x < 0 then -x else x
  }

  function Max(a: int, b: int): int {
    if a < b then b else a
  }

  function Min(a: int, b: int): int {
    if a < b then a else b
  }

  /** Integer division as Go does it: toward zero. */
  function TruncDiv(a: int, b: pos): int {
    if a < 0 then -((-a) / b) else a / b
  }

  /** a*bps/10000 rounded down, in a form whose steps stay within int64. */
  function MulBps(a: int, bps: int): int {
    TruncDiv(a, 10_000) * bps + TruncDiv((a - TruncDiv(a, 10_000) * 10_000) * bps, 10_000)
  }

  /** For amounts and shares in range it is the exact floor, a share of a, and no step can overflow. */
  lemma MulBpsExact(a: nat, bps: nat)
    requires bps <= 10_000
    ensures MulBps(a, bps) == a * bps / 10_000
    ensures 0 <= MulBps(a, bps) <= a
    ensures a / 10_000 * bps <= a && a % 10_000 * bps <= 100_000_000
  {
    var q, r := a / 10_000, a % 10_000;
    assert a == q * 10_000 + r;
    assert a * bps == q * bps * 10_000 + r * bps;
    MulLe(bps, 10_000, q);
    MulLe(bps, 10_000, r);
    assert q * bps <= q * 10_000;
    assert r * bps <= r * 10_000;
    assert r * bps / 10_000 <= r;
  }

  // ---- nonlinear arithmetic, one small step at a time

  lemma MulLe(a: int, b: int, c: int)
    requires a <= b && 0 <= c
    ensures a * c <= b * c
  {
  }

  lemma MulLt(a: int, b: int, c: int)
    requires a < b && 0 < c
    ensures a * c < b * c
  {
  }

  lemma MulCancelLe(a: int, b: int, c: int)
    requires a * c <= b * c && 0 < c
    ensures a <= b
  {
    if b < a {
      MulLt(b, a, c);
    }
  }

  lemma MulCancelLt(a: int, b: int, c: int)
    requires a * c < b * c && 0 < c
    ensures a < b
  {
    if b <= a {
      MulLe(b, a, c);
    }
  }

  // ---- runs

  /** Something held at first and kept by each step exactly when the step is not bad: always held iff no step is bad. */
  lemma {:induction false} KeptExactly(held: seq<bool>, bad: seq<bool>)
    requires |held| == |bad| + 1 && held[0]
    requires forall i :: 0 <= i < |bad| && held[i] ==> (held[i + 1] <==> !bad[i])
    ensures (forall i :: 0 <= i < |held| ==> held[i]) <==> (forall i :: 0 <= i < |bad| ==> !bad[i])
  {
    var n := |bad|;
    if 0 < n {
      var h, b := held[..n], bad[..n - 1];
      KeptExactly(h, b);
      if forall i :: 0 <= i < n ==> !bad[i] {
        assert forall i :: 0 <= i < n - 1 ==> !b[i];
        assert h[n - 1] && held[n - 1 + 1];
        assert forall i :: 0 <= i < n ==> held[i] == h[i];
      }
      if forall i :: 0 <= i < |held| ==> held[i] {
        forall i | 0 <= i < n
          ensures !bad[i]
        {
          assert held[i] && held[i + 1];
        }
      }
    }
  }

  // ---- sequences and multisets

  lemma Associate<T>(a: seq<T>, b: seq<T>, c: seq<T>)
    ensures (a + b) + c == a + (b + c)
  {
  }

  /** The places of s whose element satisfies p. */
  ghost function Where<T>(s: seq<T>, p: T -> bool): set<int> {
    set i | 0 <= i < |s| && p(s[i])
  }

  lemma WhereStep<T>(s: seq<T>, x: T, p: T -> bool)
    ensures |Where(s + [x], p)| == |Where(s, p)| + if p(x) then 1 else 0
  {
    var more := s + [x];
    forall i
      ensures i in Where(more, p) <==> i in Where(s, p) || (i == |s| && p(x))
    {
      assert 0 <= i < |s| ==> more[i] == s[i];
    }
    assert Where(more, p) == Where(s, p) + if p(x) then {|s|} else {};
  }

  /** s without its element at index i. */
  function Without<T>(s: seq<T>, i: nat): seq<T>
    requires i < |s|
  {
    s[..i] + s[i + 1..]
  }

  lemma PullOut<T>(s: seq<T>, i: nat)
    requires i < |s|
    ensures multiset(s) == multiset{s[i]} + multiset(Without(s, i))
  {
    assert s == s[..i] + [s[i]] + s[i + 1..];
  }

  lemma MatchInPermutation<T>(s: seq<T>, t: seq<T>) returns (i: nat)
    requires multiset(s) == multiset(t) && s != []
    ensures i < |t| && t[i] == s[0]
    ensures multiset(s[1..]) == multiset(Without(t, i))
  {
    assert s[0] in multiset(t);
    i :| 0 <= i < |t| && t[i] == s[0];
    PullOut(t, i);
    PullOut(s, 0);
    assert Without(s, 0) == s[1..];
    var x, a, b := multiset{s[0]}, multiset(s[1..]), multiset(Without(t, i));
    assert a == (x + a) - x && b == (x + b) - x;
  }

  lemma SameLength<T>(s: seq<T>, t: seq<T>)
    requires multiset(s) == multiset(t)
    ensures |s| == |t|
  {
    assert |s| == |multiset(s)| == |multiset(t)| == |t|;
  }

  /** The answers f finds in each element, in order. */
  function Collect<S, T>(s: seq<S>, f: S -> seq<T>): seq<T> {
    if s == [] then [] else f(s[0]) + Collect(s[1..], f)
  }

  lemma {:induction false} CollectAppend<S, T>(s: seq<S>, x: S, f: S -> seq<T>)
    ensures Collect(s + [x], f) == Collect(s, f) + f(x)
  {
    if s == [] {
      assert ([] + [x])[1..] == [];
      assert Collect([], f) == [];
    } else {
      CollectAppend(s[1..], x, f);
      assert (s + [x])[1..] == s[1..] + [x];
    }
  }

  lemma CollectStep<S, T>(s: seq<S>, k: nat, f: S -> seq<T>)
    requires k < |s|
    ensures Collect(s[..k + 1], f) == Collect(s[..k], f) + f(s[k])
  {
    assert s[..k + 1] == s[..k] + [s[k]];
    CollectAppend(s[..k], s[k], f);
  }

  lemma CollectFirst<S, T>(x: S, rest: seq<S>, f: S -> seq<T>)
    ensures Collect([x] + rest, f) == f(x) + Collect(rest, f)
  {
    assert ([x] + rest)[1..] == rest;
  }

  lemma {:induction false} CollectWithout<S, T>(s: seq<S>, i: nat, f: S -> seq<T>)
    requires i < |s|
    ensures multiset(Collect(s, f)) == multiset(f(s[i])) + multiset(Collect(Without(s, i), f))
  {
    if i == 0 {
      assert Without(s, 0) == s[1..];
    } else {
      assert Without(s, i) == [s[0]] + Without(s[1..], i - 1) && s == [s[0]] + s[1..];
      hide Collect, Without;
      CollectWithout(s[1..], i - 1, f);
      CollectFirst(s[0], s[1..], f);
      CollectFirst(s[0], Without(s[1..], i - 1), f);
    }
  }

  /** Collecting over a permutation collects a permutation. */
  lemma {:induction false} CollectPermutation<S, T>(s: seq<S>, t: seq<S>, f: S -> seq<T>)
    requires multiset(s) == multiset(t)
    ensures multiset(Collect(s, f)) == multiset(Collect(t, f))
    decreases |s|
  {
    SameLength(s, t);
    if s != [] {
      var i := MatchInPermutation(s, t);
      CollectPermutation(s[1..], Without(t, i), f);
      CollectWithout(t, i, f);
    }
  }
}
