// Decimal text as the standard library prints it (strconv.FormatUint,
// strconv.Itoa) and the value such text denotes.
module Decimal {
  import opened Basics

  function Pow10(n: int): (p: pos) {
    if n <= 0 then 1 else 10 * Pow10(n - 1)
  }

  predicate IsDigit(c: char) {
    '0' <= c <= '9'
  }

  predicate AllDigits(s: string) {
    forall i :: 0 <= i < |s| ==> IsDigit(s[i])
  }

  function DigitChar(d: int): (c: char)
    requires 0 <= d < 10
    ensures IsDigit(c) && DigitValue(c) == d
  {
    ('0' as int + d) as char
  }

  function DigitValue(c: char): int {
    c as int - '0' as int
  }

  /** The shortest decimal text of n. */
  function Digits(n: nat): (s: string)
    ensures s != [] && AllDigits(s)
  {
    if n < 10 then [DigitChar(n)] else Digits(n / 10) + [DigitChar(n % 10)]
  }

  /** The decimal text of a signed integer. */
  function Text(i: int): (s: string)
    ensures s != []
    ensures forall k :: 0 <= k < |s| ==> IsDigit(s[k]) || s[k] == '-'
  {
    if i < 0 then "-" + Digits(-i) else Digits(i)
  }

  function NatOf(s: string): nat
    requires AllDigits(s)
  {
    if s == [] then 0 else NatOf(s[..|s| - 1]) * 10 + DigitValue(s[|s| - 1])
  }

  lemma {:induction false} NatOfDigits(n: nat)
    ensures NatOf(Digits(n)) == n
  {
    if n < 10 {
      assert Digits(n)[..0] == [];
    } else {
      NatOfDigits(n / 10);
      assert Digits(n)[..|Digits(n)| - 1] == Digits(n / 10);
    }
  }

  lemma {:induction false} NatOfConcat(a: string, b: string)
    requires AllDigits(a) && AllDigits(b)
    ensures AllDigits(a + b)
    ensures NatOf(a + b) == NatOf(a) * Pow10(|b|) + NatOf(b)
  {
    if b == [] {
      assert a + b == a;
    } else {
      var front := b[..|b| - 1];
      NatOfConcat(a, front);
      assert (a + b)[..|a + b| - 1] == a + front;
      ShiftTen(NatOf(a), Pow10(|b| - 1), NatOf(front));
    }
  }

  lemma ShiftTen(x: int, p: int, y: int)
    ensures (x * p + y) * 10 == x * (10 * p) + y * 10
  {
    assert x * (10 * p) == 10 * (x * p);
  }

  lemma {:induction false} NatOfZeros(s: string)
    requires forall i :: 0 <= i < |s| ==> s[i] == '0'
    ensures AllDigits(s) && NatOf(s) == 0
  {
    if s != [] {
      NatOfZeros(s[..|s| - 1]);
    }
  }

  /** Integers print to distinct texts. */
  lemma {:induction false} TextInjective(i: int, j: int)
    requires Text(i) == Text(j)
    ensures i == j
  {
    NatOfDigits(Abs(i));
    NatOfDigits(Abs(j));
    assert i < 0 ==> Text(i)[0] == '-' && Text(i)[1..] == Digits(-i);
    assert j < 0 ==> Text(j)[0] == '-' && Text(j)[1..] == Digits(-j);
    assert 0 <= i ==> IsDigit(Text(i)[0]);
    assert 0 <= j ==> IsDigit(Text(j)[0]);
  }
}
