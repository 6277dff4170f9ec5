// agent/value.go, FormatScaled: the decimal text of a feed value, and a
// reader for such text. Printing and reading back is the identity on every
// int64 except where the code negates the smallest one.
module Format {
  import opened Basics
  import opened Decimal
  import opened Median
  import opened Strings
  import Value

  function Zeros(n: int): (s: string)
    ensures |s| == Max(n, 0) && forall i :: 0 <= i < |s| ==> s[i] == '0'
  {
    if n <= 0 then "" else "0" + Zeros(n - 1)
  }

  /** Sprintf("%0*d", width, v): zeros go between the sign and the digits. */
  function PadInt(width: int, v: int): string {
    var digits := Digits(Abs(v));
    if v < 0 then "-" + Zeros(width - 1 - |digits|) + digits
    else Zeros(width - |digits|) + digits
  }

  lemma PadIntLength(width: int, v: int)
    ensures width <= |PadInt(width, v)|
  {
  }

  function FormatScaled(v: int, decimals: int): string
    requires IsInt64(v)
  {
    if decimals <= 0 then
      PadInt(0, v)
    else
      var neg := v < 0;
      var w := if neg then Wrap64(-v) else v;
      var s := PadInt(decimals + 1, w);
      PadIntLength(decimals + 1, w);
      var out := Pointed(s, decimals);
      if neg then "-" + out else out
  }

  // ---- reading decimals

  /** Digits with at most one point, at least one digit before it. */
  function ReadUnsigned(s: string): Option<Rat> {
    var i := IndexByte(s, '.');
    var whole := if i == -1 then s else s[..i];
    var frac := if i == -1 then "" else s[i + 1..];
    if whole != "" && AllDigits(whole) && AllDigits(frac)
    then Some(Rat(NatOf(whole + frac), Pow10(|frac|)))
    else None
  }

  function ReadDecimal(s: string): Option<Rat> {
    if s != "" && s[0] == '-' then
      match ReadUnsigned(s[1..])
      case Some(r) => Some(Rat(-r.num, r.den))
      case None => None
    else
      ReadUnsigned(s)
  }

  predicate ReadsBackAs(s: string, decimals: int, v: int) {
    var r := ReadDecimal(s);
    r.Some? && Value.Fitted(Value.Scaled(r.value, decimals)) == Ok(v)
  }

  lemma DigitsHaveNoPoint(s: string)
    requires AllDigits(s)
    ensures '.' !in s && '-' !in s
  {
  }

  lemma ReadPointed(whole: string, frac: string)
    requires whole != "" && AllDigits(whole) && AllDigits(frac)
    ensures ReadUnsigned(whole + "." + frac) == Some(Rat(NatOf(whole + frac), Pow10(|frac|)))
  {
    var s := whole + "." + frac;
    DigitsHaveNoPoint(whole);
    assert s == whole + ['.'] + frac;
    FirstIndex(whole, '.', frac);
    assert s[..|whole|] == whole && s[|whole| + 1..] == frac;
  }

  lemma PaddedValue(width: int, n: nat)
    ensures AllDigits(PadInt(width, n)) && NatOf(PadInt(width, n)) == n
  {
    var zeros := Zeros(width - |Digits(n)|);
    NatOfZeros(zeros);
    NatOfConcat(zeros, Digits(n));
    NatOfDigits(n);
    assert 0 * Pow10(|Digits(n)|) == 0;
  }

  /** s with a point before its last `decimals` characters. */
  function Pointed(s: string, decimals: pos): string
    requires decimals <= |s|
  {
    s[..|s| - decimals] + "." + s[|s| - decimals..]
  }

  lemma ReadPadded(n: nat, decimals: pos)
    ensures var s := PadInt(decimals + 1, n);
      decimals < |s| && IsDigit(s[0])
      && ReadUnsigned(Pointed(s, decimals)) == Some(Rat(n, Pow10(decimals)))
  {
    var s := PadInt(decimals + 1, n);
    PaddedValue(decimals + 1, n);
    PointedValue(s, decimals);
  }

  lemma PointedValue(s: string, decimals: pos)
    requires decimals < |s| && AllDigits(s)
    ensures ReadUnsigned(Pointed(s, decimals)) == Some(Rat(NatOf(s), Pow10(decimals)))
  {
    var whole, frac := s[..|s| - decimals], s[|s| - decimals..];
    assert whole + frac == s;
    ReadPointed(whole, frac);
  }

  lemma SignRead(s: string)
    requires s != ""
    ensures IsDigit(s[0]) ==> ReadDecimal(s) == ReadUnsigned(s)
    ensures ReadUnsigned(s).Some? ==>
      var r := ReadUnsigned(s).value; ReadDecimal("-" + s) == Some(Rat(-r.num, r.den))
    ensures s[0] == '-' ==> ReadDecimal("-" + s) == None
  {
    var t := "-" + s;
    assert t[1..] == s;
    if s[0] == '-' {
      var i := IndexByte(s, '.');
      assert 0 < i ==> s[..i][0] == '-';
    }
  }

  lemma ScaledExact(v: int, decimals: int)
    requires IsInt64(v)
    ensures Value.Scaled(Rat(v, Pow10(decimals)), decimals) == v
  {
    var p := Pow10(decimals);
    assert Abs(v * p - v * p) == 0;
    Value.RoundUnique(v * p, p, v);
  }

  lemma ReadBackWhole(v: int, decimals: int)
    requires IsInt64(v) && decimals <= 0
    ensures ReadDecimal(FormatScaled(v, decimals)) == Some(Rat(v, 1))
  {
    var digits := Digits(Abs(v));
    DigitsHaveNoPoint(digits);
    NatOfDigits(Abs(v));
    assert Zeros(0 - |digits|) == "" && Zeros(-1 - |digits|) == "";
    assert digits + "" == digits;
    assert ReadUnsigned(digits) == Some(Rat(Abs(v), 1));
    SignRead(digits);
    assert FormatScaled(v, decimals) == if v < 0 then "-" + digits else digits;
  }

  lemma ReadBackPointed(v: int, decimals: pos)
    requires IsInt64(v) && v != MIN_INT64
    ensures ReadDecimal(FormatScaled(v, decimals)) == Some(Rat(v, Pow10(decimals)))
  {
    ReadPadded(Abs(v), decimals);
    var out := Pointed(PadInt(decimals + 1, Abs(v)), decimals);
    SignRead(out);
    assert FormatScaled(v, decimals) == if v < 0 then "-" + out else out;
  }

  lemma SmallestDoesNotReadBack(decimals: pos)
    ensures ReadDecimal(FormatScaled(MIN_INT64, decimals)) == None
  {
    assert Wrap64(-MIN_INT64) == MIN_INT64;
    var p := PadInt(decimals + 1, MIN_INT64);
    assert p[0] == '-';
    SignRead(Pointed(p, decimals));
  }

  /**
   * Reading the printed value at the same decimals gives the value back,
   * for exactly the inputs other than the smallest int64 at positive decimals:
   * its negation wraps, and two signs are printed.
   */
  lemma PrintAndReadBack(v: int, decimals: int)
    requires IsInt64(v)
    ensures ReadsBackAs(FormatScaled(v, decimals), decimals, v) <==> !(v == MIN_INT64 && 0 < decimals)
  {
    ScaledExact(v, decimals);
    if decimals <= 0 {
      ReadBackWhole(v, decimals);
    } else if v == MIN_INT64 {
      SmallestDoesNotReadBack(decimals);
    } else {
      ReadBackPointed(v, decimals);
    }
  }

  // ---- the text itself

  /** One more place: the padded quotient and the last digit. */
  lemma PadOneMore(width: pos, n: nat)
    ensures PadInt(width + 1, n) == PadInt(width, n / 10) + [DigitChar(n % 10)]
  {
    if n < 10 {
      assert Zeros(width) == Zeros(width - 1) + "0";
    } else {
      assert Digits(n) == Digits(n / 10) + [DigitChar(n % 10)];
    }
  }

  function Whole(n: nat, p: pos): nat {
    n / p
  }

  lemma DivTwice(n: nat, p: pos)
    ensures Whole(n / 10, p) == Whole(n, 10 * p)
  {
    var q, r := n / 10 / p, n / 10 % p;
    assert n / 10 == q * p + r;
    assert n == 10 * (q * p + r) + n % 10;
    assert 10 * (q * p + r) == q * (10 * p) + 10 * r;
    Value.QuotientUnique(n, 10 * p, q, 10 * r + n % 10);
  }

  /** s without its last characters. */
  predicate Starts(s: string, last: nat, start: string) {
    last < |s| && s[..|s| - last] == start
  }

  lemma WholeAlone(n: nat)
    ensures Starts(PadInt(1, n), 0, Digits(n))
  {
    var s := PadInt(1, n);
    assert s == Digits(n);
    assert s[..|s|] == s;
  }

  lemma OneMoreLast(t: string, c: char, last: nat, start: string)
    requires Starts(t, last, start)
    ensures Starts(t + [c], last + 1, start)
  {
    assert (t + [c])[..|t| - last] == t[..|t| - last];
  }

  /** Before the point stands the whole part, without leading zeros. */
  lemma {:induction false} WholePart(decimals: nat, n: nat, p: pos)
    requires p == Pow10(decimals)
    ensures Starts(PadInt(decimals + 1, n), decimals, Digits(Whole(n, p)))
  {
    if decimals == 0 {
      assert Whole(n, p) == n;
      WholeAlone(n);
    } else {
      var q := Pow10(decimals - 1);
      assert p == 10 * q;
      hide PadInt, Digits, Pow10, Starts, Whole;
      WholePart(decimals - 1, n / 10, q);
      DivTwice(n, q);
      PadOneMore(decimals, n);
      OneMoreLast(PadInt(decimals, n / 10), DigitChar(n % 10), decimals - 1, Digits(Whole(n, p)));
    }
  }

  lemma Remainder(n: nat, p: pos, y: int)
    requires n == n / p * p + y
    ensures y == n % p
  {
  }

  /** After it stands the rest, in exactly as many digits as the feed has decimals. */
  lemma FractionPart(decimals: pos, n: nat, p: pos)
    requires p == Pow10(decimals)
    ensures var s := PadInt(decimals + 1, n);
      && decimals < |s| && AllDigits(s[|s| - decimals..]) && NatOf(s[|s| - decimals..]) == n % p
  {
    hide PadInt, Pow10, Digits, NatOf;
    var s := PadInt(decimals + 1, n);
    WholePart(decimals, n, p);
    PaddedValue(decimals + 1, n);
    var whole, frac := s[..|s| - decimals], s[|s| - decimals..];
    assert s == whole + frac;
    NatOfConcat(whole, frac);
    NatOfDigits(n / p);
    Remainder(n, p, NatOf(frac));
  }

  /** The sign, the whole part, a point, and the fraction: n units of 1/p each. */
  predicate IsPlain(s: string, n: nat, p: pos, decimals: nat) {
    decimals < |s|
    && var i := |s| - decimals;
       && 0 < i && s[..i - 1] == Digits(n / p) && s[i - 1] == '.'
       && AllDigits(s[i..]) && NatOf(s[i..]) == n % p
  }

  /** The text of every value but the smallest, character by character. */
  lemma TextIsPlain(v: int, decimals: pos)
    requires IsInt64(v) && v != MIN_INT64
    ensures var s := FormatScaled(v, decimals);
      if v < 0 then s != "" && s[0] == '-' && IsPlain(s[1..], -v, Pow10(decimals), decimals)
      else IsPlain(s, v, Pow10(decimals), decimals)
  {
    hide PadInt, Pow10, Digits, NatOf;
    var n := Abs(v);
    WholePart(decimals, n, Pow10(decimals));
    FractionPart(decimals, n, Pow10(decimals));
    PadIntLength(decimals + 1, n);
    var s := PadInt(decimals + 1, n);
    var out := Pointed(s, decimals);
    assert out[..|out| - decimals - 1] == s[..|s| - decimals];
    assert out[|out| - decimals..] == s[|s| - decimals..];
    assert ("-" + out)[1..] == out;
  }
}
