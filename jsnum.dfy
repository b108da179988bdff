// JavaScript's string-to-number conversions as the gateway and the parameter
// normaliser use them: `Number(s)` (StringToNumber) and `parseInt(s, 10)`.
// Reals stand for doubles: there is no rounding and no overflow to Infinity.

module JsNum {
  import opened Text

  /** A JavaScript number: NaN, an infinity, or a finite value. */
  datatype Number = NaN | Infinity(negative: bool) | Finite(value: real)

  /** m · 10^e for a possibly negative exponent, one power of ten at a time. */
  function Scale(m: real, e: int): real
    decreases if e >= 0 then e else -e
  {
    if e == 0 then m
    else if e > 0 then Scale(m, e - 1) * 10.0
    else Scale(m, e + 1) / 10.0
  }

  predicate AllDigits(s: string)
  {
    forall i :: 0 <= i < |s| ==> IsDigit(s[i])
  }

  /** The first position of `c`, or |s| when there is none. */
  function FindChar(s: string, c: char): (i: nat)
    ensures i <= |s|
    ensures i < |s| ==> s[i] == c
    ensures forall j :: 0 <= j < i ==> s[j] != c
  {
    if s == [] then 0
    else if s[0] == c then 0
    else 1 + FindChar(s[1..], c)
  }

  predicate IsExpMark(c: char)
  {
    c == 'e' || c == 'E'
  }

  /** The first position of an exponent mark, or |s| when there is none. */
  function FindExpMark(s: string): (i: nat)
    ensures i <= |s|
    ensures i < |s| ==> IsExpMark(s[i])
    ensures forall j :: 0 <= j < i ==> !IsExpMark(s[j])
  {
    if s == [] then 0
    else if IsExpMark(s[0]) then 0
    else 1 + FindExpMark(s[1..])
  }

  /** The length of the run of decimal digits that starts `s`. */
  function DigitRun(s: string): (i: nat)
    ensures i <= |s|
    ensures i < |s| ==> !IsDigit(s[i])
    ensures forall j :: 0 <= j < i ==> IsDigit(s[j])
  {
    if s == [] then 0
    else if !IsDigit(s[0]) then 0
    else 1 + DigitRun(s[1..])
  }

  /** The value of the digits after a decimal point: 0.d1d2... is (d1 + 0.d2...) / 10. */
  function FractionValue(f: string): (r: real)
    requires AllDigits(f)
    ensures 0.0 <= r < 1.0
    decreases |f|
  {
    if f == [] then 0.0 else (DigitValue(f[0]) as real + FractionValue(f[1..])) / 10.0
  }

  /** `digits [. digits]` or `. digits` (at least one digit in all): the value, if well formed. */
  function Mantissa(m: string): (r: Option<real>)
    ensures r.Some? ==> 0.0 <= r.value
  {
    var dot := FindChar(m, '.');
    var ip := m[..dot];
    var fp := if dot < |m| then m[dot + 1..] else [];
    if AllDigits(ip) && AllDigits(fp) && (|ip| > 0 || |fp| > 0) then
      Some(DigitsValue(ip) as real + FractionValue(fp))
    else None
  }

  /** An exponent: optional sign, at least one digit. */
  function Exponent(x: string): (r: Option<int>)
  {
    var neg := |x| > 0 && x[0] == '-';
    var body := if |x| > 0 && (x[0] == '-' || x[0] == '+') then x[1..] else x;
    if |body| > 0 && AllDigits(body) then
      Some(if neg then -(DigitsValue(body) as int) else DigitsValue(body) as int)
    else None
  }

  /** StrUnsignedDecimalLiteral without Infinity: mantissa, then optionally e/E and an exponent. */
  function UnsignedDecimal(s: string): (r: Option<real>)
  {
    var e := FindExpMark(s);
    match Mantissa(s[..e])
    case None => None
    case Some(m) =>
      if e == |s| then Some(m)
      else
        match Exponent(s[e + 1..])
        case None => None
        case Some(x) => Some(Scale(m, x))
  }

  function HexDigitValue(c: char): Option<nat>
  {
    if '0' <= c <= '9' then Some(c as int - '0' as int)
    else if 'a' <= c <= 'f' then Some(c as int - 'a' as int + 10)
    else if 'A' <= c <= 'F' then Some(c as int - 'A' as int + 10)
    else None
  }

  /** The value of a non-prefixed digit string in the given radix (2, 8 or 16), if every digit is valid. */
  function RadixValue(s: string, radix: nat): (r: Option<nat>)
    requires radix == 2 || radix == 8 || radix == 16
    decreases |s|
  {
    if s == [] then Some(0)
    else
      match (RadixValue(s[..|s| - 1], radix), HexDigitValue(s[|s| - 1]))
      case (Some(v), Some(d)) => if d < radix then Some(Times(v, radix) + d) else None
      case _ => None
  }

  /** v · radix, written out per radix so that it stays linear. */
  function Times(v: nat, radix: nat): nat
    requires radix == 2 || radix == 8 || radix == 16
  {
    if radix == 2 then v * 2 else if radix == 8 then v * 8 else v * 16
  }

  function RadixOf(c: char): (r: nat)
    ensures r == 0 || r == 2 || r == 8 || r == 16
  {
    if c == 'x' || c == 'X' then 16
    else if c == 'o' || c == 'O' then 8
    else if c == 'b' || c == 'B' then 2
    else 0
  }

  /** The three infinity literals: Some(negative) for one of them, None otherwise. */
  function InfinityWord(s: string): Option<bool>
  {
    if s == "Infinity" || s == "+Infinity" then Some(false)
    else if s == "-Infinity" then Some(true)
    else None
  }

  /** A string without a capital I is none of the three infinity literals. */
  lemma NotInfinityWord(s: string)
    requires 'I' !in s
    ensures InfinityWord(s).None?
  {
    assert "Infinity"[0] == 'I' && "+Infinity"[1] == 'I' && "-Infinity"[1] == 'I';
  }

  /** `0x`, `0o` or `0b` followed by the digits: their value, NaN when there are none or one is invalid. */
  function PrefixedValue(s: string): Number
    requires |s| >= 2 && RadixOf(s[1]) != 0
  {
    if |s| == 2 then NaN
    else match RadixValue(s[2..], RadixOf(s[1]))
      case Some(v) => Finite(v as real)
      case None => NaN
  }

  /** A decimal literal with an optional sign. */
  function SignedDecimal(s: string): Number
    requires s != []
  {
    var neg := s[0] == '-';
    var body := if s[0] == '-' || s[0] == '+' then s[1..] else s;
    match UnsignedDecimal(body)
    case Some(v) => Finite(if neg then -v else v)
    case None => NaN
  }

  /** `Number(str)`: white space trimmed; empty is 0; the infinities; 0x/0o/0b literals; a signed decimal literal; else NaN. */
  function StringToNumber(str: string): (r: Number)
    ensures IsBlank(str) ==> r == Finite(0.0)
  {
    var s := Trim(str);
    TrimEmptyIffBlank(str);
    if s == [] then Finite(0.0)
    else if InfinityWord(s).Some? then Infinity(InfinityWord(s).value)
    else if |s| >= 2 && s[0] == '0' && RadixOf(s[1]) != 0 then PrefixedValue(s)
    else SignedDecimal(s)
  }

  /** `parseInt(str, 10)`: leading white space, an optional sign, then the longest run of digits. */
  function ParseInt10(str: string): (r: Option<int>)
  {
    var s := TrimStart(str);
    var neg := |s| > 0 && s[0] == '-';
    var body := if |s| > 0 && (s[0] == '-' || s[0] == '+') then s[1..] else s;
    var n := DigitRun(body);
    if n == 0 then None
    else Some(if neg then -(DigitsValue(body[..n]) as int) else DigitsValue(body[..n]) as int)
  }

  /** Only the capitalised literal reads as an infinity. */
  lemma InfinityNeedsCapital(str: string)
    requires 'I' !in Trim(str)
    ensures !StringToNumber(str).Infinity?
  {
    NotInfinityWord(Trim(str));
  }

  // ---------------------------------------------------------------------------
  // Round trips with the decimal spelling of integers
  // ---------------------------------------------------------------------------

  lemma DigitsNoSpace(s: string)
    requires AllDigits(s) && s != []
    ensures Trim(s) == s && TrimStart(s) == s
  {
    assert IsDigit(s[0]) && IsDigit(s[|s| - 1]);
    TrimNoSpaceEnds(s);
  }

  lemma NoExpMarkInDigits(s: string)
    requires AllDigits(s)
    ensures FindExpMark(s) == |s|
  {
    if FindExpMark(s) < |s| {
      assert false;
    }
  }

  lemma NoDotInDigits(s: string)
    requires AllDigits(s)
    ensures FindChar(s, '.') == |s|
  {
    if FindChar(s, '.') < |s| {
      assert false;
    }
  }

  lemma MantissaOfDigits(s: string)
    requires AllDigits(s) && s != []
    ensures Mantissa(s) == Some(DigitsValue(s) as real)
  {
    NoDotInDigits(s);
    assert s[..|s|] == s;
  }

  /** A plain run of digits is an unsigned decimal literal with its digits' value. */
  lemma UnsignedDecimalOfDigits(s: string)
    requires AllDigits(s) && s != []
    ensures UnsignedDecimal(s) == Some(DigitsValue(s) as real)
  {
    NoExpMarkInDigits(s);
    MantissaOfDigits(s);
    assert s[..|s|] == s;
  }

  /** A trimmed decimal literal that is no infinity and no prefixed literal reads as a decimal. */
  lemma NumberOfDecimal(s: string)
    requires s != [] && Trim(s) == s && InfinityWord(s).None?
    requires s[0] != '0' || |s| < 2 || RadixOf(s[1]) == 0
    ensures StringToNumber(s) == SignedDecimal(s)
  {
  }

  /** A decimal literal: the value of its unsigned part, negated after a minus sign. */
  lemma SignedOfUnsigned(s: string, v: real)
    requires s != []
    requires UnsignedDecimal(if s[0] == '-' || s[0] == '+' then s[1..] else s) == Some(v)
    ensures SignedDecimal(s) == Finite(if s[0] == '-' then -v else v)
  {
  }

  /** A plain run of digits reads as its value: it is no infinity and no prefixed literal. */
  lemma NumberOfDigits(s: string)
    requires AllDigits(s) && s != []
    ensures StringToNumber(s) == Finite(DigitsValue(s) as real)
  {
    DigitsNoSpace(s);
    UnsignedDecimalOfDigits(s);
    assert IsDigit(s[0]);
    NotInfinityWord(s);
    if |s| >= 2 {
      assert IsDigit(s[1]);
      assert RadixOf(s[1]) == 0;
    }
    NumberOfDecimal(s);
    SignedOfUnsigned(s, DigitsValue(s) as real);
  }

  /** `Number` reads back the decimal spelling of every natural number. */
  lemma NumberOfNat(n: nat)
    ensures StringToNumber(NatToString(n)) == Finite(n as real)
  {
    NumberOfDigits(NatToString(n));
  }

  /** A minus sign and then digits, as for every negative integer, read as the negated value. */
  lemma NumberOfNegativeDigits(s: string, d: string)
    requires AllDigits(d) && d != []
    requires |s| == |d| + 1 && s[0] == '-' && s[1..] == d
    ensures StringToNumber(s) == Finite(-(DigitsValue(d) as real))
  {
    assert s[|s| - 1] == d[|d| - 1];
    TrimNoSpaceEnds(s);
    UnsignedDecimalOfDigits(d);
    assert 'I' !in s by {
      assert forall i :: 1 <= i < |s| ==> s[i] == d[i - 1];
    }
    NotInfinityWord(s);
    NumberOfDecimal(s);
    SignedOfUnsigned(s, DigitsValue(d) as real);
  }

  lemma {:induction false} DigitRunPrefix(d: string, rest: string)
    requires AllDigits(d)
    requires rest == [] || !IsDigit(rest[0])
    ensures DigitRun(d + rest) == |d|
  {
    if d != [] {
      assert (d + rest)[1..] == d[1..] + rest;
      DigitRunPrefix(d[1..], rest);
    } else {
      assert d + rest == rest;
    }
  }

  /** Digits not preceded by white space or a sign, then a non-digit: parseInt reads the digits. */
  lemma ParseIntOfDigits(d: string, rest: string)
    requires d != [] && AllDigits(d)
    requires rest == [] || !IsDigit(rest[0])
    ensures ParseInt10(d + rest) == Some(DigitsValue(d) as int)
  {
    var s := d + rest;
    assert s[0] == d[0];
    assert !IsSpace(s[0]) && !(s[0] == '-' || s[0] == '+');
    assert TrimStart(s) == s;
    DigitRunPrefix(d, rest);
    assert s[..DigitRun(s)] == d;
  }

  /** `parseInt(s, 10)` reads back the decimal spelling of every natural number, and stops at the first non-digit. */
  lemma ParseIntOfNat(n: nat, rest: string)
    requires rest == [] || !IsDigit(rest[0])
    ensures ParseInt10(NatToString(n) + rest) == Some(n)
  {
    ParseIntOfDigits(NatToString(n), rest);
  }
}
