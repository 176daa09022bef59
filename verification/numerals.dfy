/** Decimal numerals as Python reads and writes them: `str(n)` for integers,
    and the text `int(s)` and `float(s)` accept (ASCII digits, an optional
    sign, single underscores between digits, surrounding whitespace). */
module Numerals {
  import opened Results
  import opened Text

  predicate IsDigit(c: char) {
    '0' <= c <= '9'
  }

  function DigitValue(c: char): nat
    requires IsDigit(c)
  {
    c as int - '0' as int
  }

  function DigitChar(d: nat): (c: char)
    requires d < 10
    ensures IsDigit(c) && DigitValue(c) == d
  {
    ('0' as int + d) as char
  }

  predicate AllDigits(s: string) {
    forall i :: 0 <= i < |s| ==> IsDigit(s[i])
  }

  /** Python's `str(n)` for a non-negative integer. */
  function NatToString(n: nat): (s: string)
    ensures |s| >= 1 && AllDigits(s)
    ensures |s| > 1 ==> s[0] != '0'
  {
    if n < 10 then [DigitChar(n)] else NatToString(n / 10) + [DigitChar(n % 10)]
  }

  /** Python's `str(i)` for any integer. */
  function IntToString(i: int): (s: string)
    ensures |s| >= 1 && IsDigit(s[|s| - 1])
    ensures s[0] == '-' || IsDigit(s[0])
  {
    if i < 0 then "-" + NatToString(-i) else NatToString(i)
  }

  /** The grammar `digit (["_"] digit)*` that Python's `int` and `float`
      accept for a run of digits. */
  predicate DigitPart(s: string) {
    |s| >= 1 && IsDigit(s[0]) && DigitTail(s[1..])
  }

  /** `(["_"] digit)*` */
  predicate DigitTail(s: string)
    decreases |s|
  {
    || |s| == 0
    || (IsDigit(s[0]) && DigitTail(s[1..]))
    || (|s| >= 2 && s[0] == '_' && IsDigit(s[1]) && DigitTail(s[2..]))
  }

  /** Value of the digits of `s` read left to right after `acc`; any other
      character (an underscore separator) is skipped. */
  function DigitsValue(acc: nat, s: string): nat
    decreases |s|
  {
    if |s| == 0 then acc
    else DigitsValue(if IsDigit(s[0]) then 10 * acc + DigitValue(s[0]) else acc, s[1..])
  }

  /** An integer literal once surrounding whitespace is gone. */
  predicate IntLiteral(t: string) {
    || DigitPart(t)
    || (|t| >= 2 && (t[0] == '+' || t[0] == '-') && DigitPart(t[1..]))
  }

  function IntLiteralValue(t: string): int
    requires IntLiteral(t)
  {
    if t[0] == '-' then -(DigitsValue(0, t[1..]) as int)
    else if t[0] == '+' then DigitsValue(0, t[1..])
    else DigitsValue(0, t)
  }

  /** Python's `int(s)`: `None` where it raises `ValueError`. */
  function PyInt(s: string): Option<int> {
    var t := Strip(s);
    if IntLiteral(t) then Some(IntLiteralValue(t)) else None
  }

  /** `[digitpart] "." digitpart`; a digit part holds no `.`, so the point
      is the first one. */
  predicate PointFloat(m: string) {
    '.' in m
    && var k := IndexOf(m, '.');
       (k == 0 || DigitPart(m[..k])) && DigitPart(m[k + 1..])
  }

  /** `pointfloat | digitpart ["."]` */
  predicate Mantissa(m: string) {
    || PointFloat(m)
    || DigitPart(m)
    || (|m| >= 2 && m[|m| - 1] == '.' && DigitPart(m[..|m| - 1]))
  }

  /** `("e" | "E") [sign] digitpart` */
  predicate Exponent(x: string) {
    |x| >= 2 && (x[0] == 'e' || x[0] == 'E') && IntLiteral(x[1..])
  }

  /** Position of the first `e` or `E` in `s`, or `|s|` if there is none. */
  function ExponentStart(s: string): (e: nat)
    ensures e <= |s|
    ensures forall i :: 0 <= i < e ==> s[i] != 'e' && s[i] != 'E'
    ensures e < |s| ==> s[e] == 'e' || s[e] == 'E'
  {
    if |s| == 0 || s[0] == 'e' || s[0] == 'E' then 0 else 1 + ExponentStart(s[1..])
  }

  /** `mantissa [exponent]`; a mantissa holds no `e` or `E`, so the
      exponent starts at the first one. */
  predicate FloatNumber(u: string) {
    var e := ExponentStart(u);
    if e == |u| then Mantissa(u) else 0 < e && Mantissa(u[..e]) && Exponent(u[e..])
  }

  /** A float literal once surrounding whitespace is gone: optional sign, then
      a decimal number or, in any case, `inf`, `infinity` or `nan`. */
  predicate FloatLiteral(t: string) {
    var u := if |t| >= 1 && (t[0] == '+' || t[0] == '-') then t[1..] else t;
    FloatNumber(u) || Lower(u) == "inf" || Lower(u) == "infinity" || Lower(u) == "nan"
  }

  /** Python's `float(s)` does not raise `ValueError`. */
  predicate PyFloatAccepts(s: string) {
    FloatLiteral(Strip(s))
  }

  /** A digit run holds only digits and underscores. */
  lemma {:induction false} DigitTailChars(s: string)
    requires DigitTail(s)
    ensures forall i :: 0 <= i < |s| ==> IsDigit(s[i]) || s[i] == '_'
    decreases |s|
  {
    if |s| > 0 {
      if IsDigit(s[0]) && DigitTail(s[1..]) {
        DigitTailChars(s[1..]);
        assert forall i :: 1 <= i < |s| ==> s[i] == s[1..][i - 1];
      } else {
        DigitTailChars(s[2..]);
        assert forall i :: 2 <= i < |s| ==> s[i] == s[2..][i - 2];
      }
    }
  }

  /** A digit part has no exponent marker. */
  lemma {:induction false} DigitPartNoExponent(s: string)
    requires DigitPart(s)
    ensures ExponentStart(s) == |s|
  {
    DigitTailChars(s[1..]);
    assert forall i :: 1 <= i < |s| ==> s[i] == s[1..][i - 1];
  }

  /** Every text `int` accepts, `float` accepts too. */
  lemma {:induction false} IntLiteralIsFloat(t: string)
    requires IntLiteral(t)
    ensures FloatLiteral(t)
  {
    if DigitPart(t) && !(|t| >= 1 && (t[0] == '+' || t[0] == '-')) {
      DigitPartNoExponent(t);
      assert Mantissa(t);
    } else {
      DigitPartNoExponent(t[1..]);
      assert Mantissa(t[1..]);
    }
  }

  lemma {:induction false} DigitsValueAppend(acc: nat, a: string, b: string)
    ensures DigitsValue(acc, a + b) == DigitsValue(DigitsValue(acc, a), b)
    decreases |a|
  {
    if |a| > 0 {
      assert (a + b)[1..] == a[1..] + b;
      DigitsValueAppend(if IsDigit(a[0]) then 10 * acc + DigitValue(a[0]) else acc, a[1..], b);
    } else {
      assert a + b == b;
    }
  }

  lemma {:induction false} AllDigitsTail(s: string)
    requires AllDigits(s)
    ensures DigitTail(s)
    decreases |s|
  {
    if |s| > 0 {
      AllDigitsTail(s[1..]);
    }
  }

  /** Reading back what `NatToString` wrote gives the number. */
  lemma {:induction false} NatToStringValue(n: nat)
    ensures DigitPart(NatToString(n))
    ensures DigitsValue(0, NatToString(n)) == n
  {
    var s := NatToString(n);
    AllDigitsTail(s[1..]);
    if n >= 10 {
      NatToStringValue(n / 10);
      DigitsValueAppend(0, NatToString(n / 10), [DigitChar(n % 10)]);
    }
  }

  /** `int(str(i)) == i` for every integer. */
  lemma {:induction false} IntToStringRoundTrip(i: int)
    ensures IntLiteral(IntToString(i))
    ensures PyInt(IntToString(i)) == Some(i)
  {
    var s := IntToString(i);
    StripFixed(s);
    if i < 0 {
      NatToStringValue(-i);
      assert s[1..] == NatToString(-i);
    } else {
      NatToStringValue(i);
    }
  }

  /** Different numbers print differently. */
  lemma {:induction false} NatToStringInjective(m: nat, n: nat)
    requires NatToString(m) == NatToString(n)
    ensures m == n
  {
    NatToStringValue(m);
    NatToStringValue(n);
  }
}
