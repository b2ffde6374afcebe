/** The JavaScript number operations the auth gate performs on the strings it
    keeps in `localStorage`: `Number(s)`, `parseInt(s, 10)`, `n.toString()`,
    truthiness, `a || b`, subtraction and `Math.max(0, n)`. Only integer values
    and NaN are represented. */
module JsNumber {
  import opened Common

  datatype Num = Finite(v: int) | NaN

  /** JavaScript truthiness of a number: neither 0 nor NaN. */
  predicate Truthy(n: Num) {
    n.Finite? && n.v != 0
  }

  /** `a || b` on numbers. */
  function Or(a: Num, b: Num): (r: Num)
    ensures Truthy(a) ==> r == a
    ensures !Truthy(a) ==> r == b
  {
    if Truthy(a) then a else b
  }

  /** `a - b`; NaN is contagious. */
  function Minus(a: Num, b: Num): Num {
    if a.Finite? && b.Finite? then Finite(a.v - b.v) else NaN
  }

  /** `Math.max(0, n)`; NaN is contagious. */
  function MaxZero(n: Num): (r: Num)
    ensures n.NaN? <==> r.NaN?
    ensures r.Finite? ==> r.v >= 0 && r.v >= n.v && (r.v == 0 || r.v == n.v)
  {
    if n.NaN? then NaN else if n.v < 0 then Finite(0) else n
  }

  predicate IsDigit(c: char) {
    '0' <= c <= '9'
  }

  predicate AllDigits(s: string) {
    forall i :: 0 <= i < |s| ==> IsDigit(s[i])
  }

  function DigitChar(d: nat): (c: char)
    requires d < 10
    ensures IsDigit(c)
  {
    ('0' as int + d) as char
  }

  function DigitValue(c: char): (d: nat)
    requires IsDigit(c)
    ensures d < 10
  {
    c as int - '0' as int
  }

  /** The decimal digits of a natural number, most significant first. */
  function Digits(n: nat): (s: string)
    ensures |s| >= 1 && AllDigits(s)
  {
    if n < 10 then [DigitChar(n)] else Digits(n / 10) + [DigitChar(n % 10)]
  }

  /** The value of a string of decimal digits. */
  function ValueOfDigits(s: string): nat
    requires AllDigits(s)
  {
    if |s| == 0 then 0 else 10 * ValueOfDigits(s[..|s| - 1]) + DigitValue(s[|s| - 1])
  }

  /** Reading back the digits of `n` gives `n`. */
  lemma {:induction false} DigitsRoundTrip(n: nat)
    ensures ValueOfDigits(Digits(n)) == n
  {
    if n >= 10 {
      var s := Digits(n);
      DigitsRoundTrip(n / 10);
      assert s[..|s| - 1] == Digits(n / 10);
    }
  }

  /** `n.toString()` for an integer. */
  function IntToString(n: int): (s: string)
    ensures s != [] && (s[0] == '-' || IsDigit(s[0])) && IsDigit(s[|s| - 1])
  {
    if n < 0 then "-" + Digits(-n) else Digits(n)
  }

  /** `n.toString()` */
  function NumToString(n: Num): string {
    match n
    case NaN => "NaN"
    case Finite(v) => IntToString(v)
  }

  /** The value of an optionally signed digit string, or NaN when `s` is not one. */
  function SignedDigits(s: string): Num {
    if |s| >= 2 && s[0] == '-' && AllDigits(s[1..]) then Finite(-(ValueOfDigits(s[1..]) as int))
    else if |s| >= 2 && s[0] == '+' && AllDigits(s[1..]) then Finite(ValueOfDigits(s[1..]))
    else if |s| >= 1 && AllDigits(s) then Finite(ValueOfDigits(s))
    else NaN
  }

  /** `Number(s)`: surrounding white space is ignored and the empty string is 0. */
  function StringToNumber(s: string): Num {
    var t := Trim(s);
    if t == "" then Finite(0) else SignedDigits(t)
  }

  /** The longest prefix of `s` made of decimal digits. */
  function DigitPrefix(s: string): (p: string)
    ensures AllDigits(p) && |p| <= |s| && p == s[..|p|]
    ensures |p| < |s| ==> !IsDigit(s[|p|])
  {
    if |s| > 0 && IsDigit(s[0]) then [s[0]] + DigitPrefix(s[1..]) else ""
  }

  /** `parseInt(s, 10)`: leading white space is skipped, then the rest is read
      by `ParseSigned`. */
  function ParseInt(s: string): Num {
    ParseSigned(TrimStart(s))
  }

  /** An optional sign and the longest run of digits after it; with no digit the
      result is NaN. */
  function ParseSigned(t: string): Num {
    var negative := |t| > 0 && t[0] == '-';
    var rest := if |t| > 0 && (t[0] == '-' || t[0] == '+') then t[1..] else t;
    var d := DigitPrefix(rest);
    if d == "" then NaN
    else if negative then Finite(-(ValueOfDigits(d) as int))
    else Finite(ValueOfDigits(d))
  }

  lemma {:induction false} DigitPrefixOfDigits(s: string)
    requires AllDigits(s)
    ensures DigitPrefix(s) == s
  {
    if |s| > 0 {
      DigitPrefixOfDigits(s[1..]);
      assert s == [s[0]] + s[1..];
    }
  }

  /** What `toString` writes, `Number` reads back unchanged. */
  lemma NumberRoundTrip(n: Num)
    ensures StringToNumber(NumToString(n)) == n
  {
    match n
    case NaN => NaNReadsBack();
    case Finite(v) => IntReadsBack(v);
  }

  lemma NaNReadsBack()
    ensures StringToNumber("NaN") == NaN
  {
    var s := "NaN";
    assert s[0] == 'N' && s[|s| - 1] == 'N';
    TrimIdentity(s);
    assert !IsDigit(s[0]);
  }

  lemma IntReadsBack(v: int)
    ensures StringToNumber(IntToString(v)) == Finite(v)
  {
    var n: nat := if v < 0 then -v else v;
    var d := Digits(n);
    DigitsRoundTrip(n);
    NumberOfDigits(d, v < 0);
    assert IntToString(v) == if v < 0 then "-" + d else d;
  }

  /** `Number` of an optionally negated, non-empty digit string reads its value. */
  lemma NumberOfDigits(d: string, negative: bool)
    requires d != [] && AllDigits(d)
    ensures StringToNumber(if negative then "-" + d else d)
         == if negative then Finite(-(ValueOfDigits(d) as int)) else Finite(ValueOfDigits(d))
  {
    var s := if negative then "-" + d else d;
    assert IsDigit(s[|s| - 1]);
    TrimIdentity(s);
    if negative {
      assert s[1..] == d;
    } else {
      assert IsDigit(s[0]);
    }
  }

  /** `parseInt` of an optionally negated digit string reads its value. */
  lemma ParseIntOfDigits(d: string, negative: bool)
    requires d != [] && AllDigits(d)
    ensures ParseInt(if negative then "-" + d else d)
         == if negative then Finite(-(ValueOfDigits(d) as int)) else Finite(ValueOfDigits(d))
  {
    var s := if negative then "-" + d else d;
    assert s[0] == '-' || IsDigit(s[0]);
    TrimStartKeeps(s);
    ParseSignedOfDigits(d, negative);
  }

  lemma TrimStartKeeps(s: string)
    requires s != [] && !IsJsWhitespace(s[0])
    ensures TrimStart(s) == s
  {
  }

  lemma ParseSignedOfDigits(d: string, negative: bool)
    requires d != [] && AllDigits(d)
    ensures ParseSigned(if negative then "-" + d else d)
         == if negative then Finite(-(ValueOfDigits(d) as int)) else Finite(ValueOfDigits(d))
  {
    if negative {
      ParseSignedNegative(d);
    } else {
      ParseSignedPositive(d);
    }
  }

  lemma ParseSignedPositive(d: string)
    requires d != [] && AllDigits(d)
    ensures ParseSigned(d) == Finite(ValueOfDigits(d))
  {
    DigitPrefixOfDigits(d);
  }

  lemma ParseSignedNegative(d: string)
    requires d != [] && AllDigits(d)
    ensures ParseSigned("-" + d) == Finite(-(ValueOfDigits(d) as int))
  {
    DigitPrefixOfDigits(d);
    assert ("-" + d)[1..] == d;
  }

  /** What `toString` writes for an integer, `parseInt` reads back unchanged. */
  lemma ParseIntRoundTrip(v: int)
    ensures ParseInt(IntToString(v)) == Finite(v)
  {
    var n: nat := if v < 0 then -v else v;
    var d := Digits(n);
    DigitsRoundTrip(n);
    ParseIntOfDigits(d, v < 0);
    assert IntToString(v) == if v < 0 then "-" + d else d;
  }
}
