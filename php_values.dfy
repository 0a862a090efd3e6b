/**
 * PHP scalar values and the conversions the driver applies to them: the `(int)` and
 * `(bool)` casts, `isset` and `??` on array entries, and `is_numeric`.
 */
module PhpValues {

  /** A scalar as it is stored in message properties, option arrays and configuration arrays. */
  datatype Value = NullV | BoolV(b: bool) | IntV(i: int) | FloatV(r: real) | StrV(s: string)

  /** `$array[$key] ?? null`. */
  function Entry(a: map<string, Value>, key: string): Value
  {
    if key in a then a[key] else NullV
  }

  /** `isset($array[$key])`: the key is present and its value is not null. */
  predicate IsSet(a: map<string, Value>, key: string)
  {
    key in a && a[key] != NullV
  }

  predicate IsDigit(c: char)
  {
    '0' <= c <= '9'
  }

  /** A string made of decimal digits only. */
  predicate AllDigits(s: string)
  {
    forall i | 0 <= i < |s| :: IsDigit(s[i])
  }

  /** The value of one digit character. */
  function DigitValue(c: char): (d: nat)
    ensures d <= 9
  {
    if IsDigit(c) then c as int - '0' as int else 0
  }

  /** The whitespace PHP skips before a numeric string: space, tab, line feed, carriage return, vertical tab, form feed. */
  predicate IsSpace(c: char)
  {
    c == ' ' || c == '\t' || c == '\n' || c == '\r' || c == 11 as char || c == 12 as char
  }

  /** The number of decimal digits `s` starts with. */
  function LeadingDigits(s: string): (n: nat)
    ensures n <= |s|
    ensures forall i | 0 <= i < n :: IsDigit(s[i])
    ensures n < |s| ==> !IsDigit(s[n])
  {
    if s == [] || !IsDigit(s[0]) then 0 else 1 + LeadingDigits(s[1..])
  }

  /** The decimal digits `s` starts with. */
  function DigitPrefix(s: string): (ds: string)
    ensures |ds| == LeadingDigits(s) && ds == s[..|ds|] && AllDigits(ds)
  {
    s[..LeadingDigits(s)]
  }

  /** The number of whitespace characters `s` starts with. */
  function LeadingSpaces(s: string): (n: nat)
    ensures n <= |s|
    ensures forall i | 0 <= i < n :: IsSpace(s[i])
    ensures n < |s| ==> !IsSpace(s[n])
  {
    if s == [] || !IsSpace(s[0]) then 0 else 1 + LeadingSpaces(s[1..])
  }

  /** The value of a string of decimal digits, most significant digit first. */
  function DecimalValue(ds: string): nat
  {
    if ds == [] then 0 else 10 * DecimalValue(ds[..|ds| - 1]) + DigitValue(ds[|ds| - 1])
  }

  /** The string without its leading sign character, if any. */
  function Unsigned(s: string): string
  {
    if |s| > 0 && (s[0] == '-' || s[0] == '+') then s[1..] else s
  }

  function Pow10(n: nat): (p: nat)
    ensures p >= 1
  {
    if n == 0 then 1 else 10 * Pow10(n - 1)
  }

  /** The length of the exponent (`e` or `E`, an optional sign, at least one digit) `s` starts with; 0 when there is none. */
  function ExponentLength(s: string): (n: nat)
    ensures n <= |s|
    ensures n > 0 ==> n >= 2 && (s[0] == 'e' || s[0] == 'E')
  {
    if s != [] && (s[0] == 'e' || s[0] == 'E') then
      var signed := if |s| > 1 && (s[1] == '-' || s[1] == '+') then 1 else 0;
      var digits := LeadingDigits(s[1 + signed..]);
      if digits > 0 then 1 + signed + digits else 0
    else 0
  }

  /** The value of an exponent `s` starts with. */
  function ExponentValue(s: string): int
  {
    if |s| < 2 then 0
    else
      var digits := Unsigned(s[1..]);
      var magnitude: int := DecimalValue(digits[..LeadingDigits(digits)]);
      if s[1] == '-' then -magnitude else magnitude
  }

  /**
   * A number as PHP writes it in a string: a sign, whole digits, an optional point with
   * fraction digits, and an optional exponent.
   */
  datatype Number = Number(negative: bool, whole: string, point: bool, fraction: string, scientific: bool, exponent: int)

  /** What a string without a numeric prefix reads as. */
  const NoNumber := Number(false, [], false, [], false, 0)

  /**
   * The numeric prefix of a string, as PHP reads it: leading whitespace, an optional sign,
   * whole digits, an optional point with fraction digits (with a digit on at least one
   * side), and an optional exponent. `length` is how many characters it covers; a string
   * with no such prefix has no number and length 0.
   */
  datatype Numeral = Numeral(number: Number, length: nat)

  /** The digits before the exponent: whole digits, and a point with fraction digits when a digit stands on either side of it. */
  datatype Mantissa = Mantissa(whole: string, point: bool, fraction: string, length: nat)

  /** The mantissa `body` starts with; length 0 when there is none. */
  function ScanMantissa(body: string): (m: Mantissa)
    ensures m.length <= |body|
    ensures !m.point ==> m.fraction == []
  {
    var whole := DigitPrefix(body);
    var afterWhole := body[|whole|..];
    var fraction := if afterWhole != [] && afterWhole[0] == '.' then DigitPrefix(afterWhole[1..]) else [];
    if afterWhole != [] && afterWhole[0] == '.' && |whole| + |fraction| > 0 then
      Mantissa(whole, true, fraction, |whole| + 1 + |fraction|)
    else Mantissa(whole, false, [], |whole|)
  }

  /** The numeral `body` starts with, once whitespace and sign (`offset` characters in all) are read. */
  function ScanUnsigned(negative: bool, body: string, offset: nat): (r: Numeral)
    ensures r.length == 0 <==> r.number == NoNumber
    ensures r.length == 0 || offset < r.length <= offset + |body|
    ensures !r.number.point ==> r.number.fraction == []
    ensures !r.number.scientific ==> r.number.exponent == 0
  {
    var m := ScanMantissa(body);
    if m.length == 0 then Numeral(NoNumber, 0)
    else
      var e := ExponentLength(body[m.length..]);
      var exponent := if e > 0 then ExponentValue(body[m.length..]) else 0;
      Numeral(Number(negative, m.whole, m.point, m.fraction, e > 0, exponent), offset + m.length + e)
  }

  function ScanNumeral(s: string): (r: Numeral)
    ensures r.length == 0 <==> r.number == NoNumber
    ensures r.length <= |s|
    ensures !r.number.point ==> r.number.fraction == []
    ensures !r.number.scientific ==> r.number.exponent == 0
  {
    var spaces := LeadingSpaces(s);
    var t := s[spaces..];
    var signed := if t != [] && (t[0] == '-' || t[0] == '+') then 1 else 0;
    ScanUnsigned(signed == 1 && t[0] == '-', t[signed..], spaces + signed)
  }

  /** The exact value a number denotes. */
  function NumberValue(n: Number): real
  {
    var magnitude := DecimalValue(n.whole) as real + DecimalValue(n.fraction) as real / Pow10(|n.fraction|) as real;
    var scaled := if n.exponent >= 0 then magnitude * Pow10(n.exponent) as real else magnitude / Pow10(-n.exponent) as real;
    if n.negative then -scaled else scaled
  }

  /** `(int) $float`: truncation toward zero. */
  function TruncateTowardZero(r: real): (n: int)
    ensures r >= 0.0 ==> 0 <= n && n as real <= r < n as real + 1.0
    ensures r < 0.0 ==> n <= 0 && n as real - 1.0 < r <= n as real
  {
    if r >= 0.0 then r.Floor else -((-r).Floor)
  }

  /**
   * `(int)` of a number: read as an integer when it has neither point nor exponent, and
   * otherwise read as a float and truncated toward zero.
   */
  function NumberToInt(n: Number): int
  {
    if !n.point && !n.scientific then
      var magnitude: int := DecimalValue(n.whole);
      if n.negative then -magnitude else magnitude
    else TruncateTowardZero(NumberValue(n))
  }

  /** `(int) $string`: its numeric prefix as an integer; no prefix reads as 0. */
  function StringToInt(s: string): int
  {
    NumberToInt(ScanNumeral(s).number)
  }

  /** Reading an integer numeral directly gives what reading it as a float and truncating gives. */
  lemma StringToIntIsTruncation(s: string)
    ensures StringToInt(s) == TruncateTowardZero(NumberValue(ScanNumeral(s).number))
  {
    var n := ScanNumeral(s).number;
    if !n.point && !n.scientific {
      var k: int := DecimalValue(n.whole);
      assert DecimalValue(n.fraction) == 0;
      assert NumberValue(n) == (if n.negative then -k else k) as real;
    }
  }

  /** A run of digits, with or without a minus sign, casts to its decimal value and is numeric. */
  lemma CastOfDigits(ds: string)
    requires ds != [] && AllDigits(ds)
    ensures StringToInt(ds) == DecimalValue(ds) && IsNumericString(ds)
    ensures StringToInt("-" + ds) == -(DecimalValue(ds) as int) && IsNumericString("-" + ds)
  {
    assert IsDigit(ds[0]);
    assert LeadingSpaces(ds) == 0;
    assert ds[0..] == ds;
    ScanDigits(false, ds, 0);
    assert ScanNumeral(ds) == Numeral(Number(false, ds, false, [], false, 0), |ds|);
    var minus := "-" + ds;
    assert LeadingSpaces(minus) == 0;
    assert minus[0..] == minus && minus[1..] == ds;
    ScanDigits(true, ds, 1);
    assert ScanNumeral(minus) == Numeral(Number(true, ds, false, [], false, 0), |minus|);
  }

  /** A body made of digits only is one whole numeral. */
  lemma ScanDigits(negative: bool, ds: string, offset: nat)
    requires ds != [] && AllDigits(ds)
    ensures ScanUnsigned(negative, ds, offset) == Numeral(Number(negative, ds, false, [], false, 0), offset + |ds|)
  {
    LeadingDigitsOfDigits(ds);
    assert ds[..|ds|] == ds;
    WholeMantissa(ds, |ds|);
    assert ds[|ds|..] == [];
  }

  lemma {:induction false} LeadingDigitsOfDigits(ds: string)
    requires AllDigits(ds)
    ensures LeadingDigits(ds) == |ds|
  {
    if ds != [] {
      assert IsDigit(ds[0]);
      LeadingDigitsOfDigits(ds[1..]);
    }
  }

  lemma {:induction false} LeadingDigitsAppend(ds: string, rest: string)
    requires AllDigits(ds)
    requires rest == [] || !IsDigit(rest[0])
    ensures LeadingDigits(ds + rest) == |ds|
  {
    if ds != [] {
      assert IsDigit(ds[0]);
      assert (ds + rest)[1..] == ds[1..] + rest;
      LeadingDigitsAppend(ds[1..], rest);
    } else {
      assert ds + rest == rest;
    }
  }

  lemma {:induction false} LeadingSpacesAppend(sp: string, s: string)
    requires forall i | 0 <= i < |sp| :: IsSpace(sp[i])
    requires s == [] || !IsSpace(s[0])
    ensures LeadingSpaces(sp + s) == |sp|
  {
    if sp != [] {
      assert IsSpace(sp[0]);
      assert (sp + s)[1..] == sp[1..] + s;
      LeadingSpacesAppend(sp[1..], s);
    } else {
      assert sp + s == s;
    }
  }

  /** A fraction of `|fs|` digits is less than one. */
  lemma {:induction false} DecimalValueBound(fs: string)
    ensures DecimalValue(fs) < Pow10(|fs|)
  {
    if fs != [] {
      DecimalValueBound(fs[..|fs| - 1]);
    }
  }

  /** Where the numeral starts shifts only its length. */
  lemma ScanOffset(negative: bool, body: string, offset: nat)
    ensures var r := ScanUnsigned(negative, body, 0);
            ScanUnsigned(negative, body, offset) == if r.length == 0 then r else Numeral(r.number, r.length + offset)
  {
  }

  lemma ScanSpaces(sp: string, s: string)
    requires forall i | 0 <= i < |sp| :: IsSpace(sp[i])
    requires s == [] || !IsSpace(s[0])
    ensures var r := ScanNumeral(s);
            ScanNumeral(sp + s) == if r.length == 0 then r else Numeral(r.number, r.length + |sp|)
  {
    LeadingSpacesAppend(sp, s);
    assert LeadingSpaces(s) == 0;
    assert (sp + s)[|sp|..] == s && s[0..] == s;
    var signed := if s != [] && (s[0] == '-' || s[0] == '+') then 1 else 0;
    ScanOffset(signed == 1 && s[0] == '-', s[signed..], |sp| + signed);
    ScanOffset(signed == 1 && s[0] == '-', s[signed..], signed);
  }

  /** Whitespace before a string changes neither its `(int)` cast nor whether it is numeric. */
  lemma SpacesSkipped(sp: string, s: string)
    requires forall i | 0 <= i < |sp| :: IsSpace(sp[i])
    requires s == [] || !IsSpace(s[0])
    ensures StringToInt(sp + s) == StringToInt(s)
    ensures IsNumericString(sp + s) <==> IsNumericString(s)
  {
    ScanSpaces(sp, s);
  }

  /** A string that starts with a digit has neither leading whitespace nor a sign. */
  lemma ScanFromDigit(s: string)
    requires s != [] && IsDigit(s[0])
    ensures ScanNumeral(s) == ScanUnsigned(false, s, 0)
  {
    assert !IsSpace(s[0]);
    assert LeadingSpaces(s) == 0;
    assert s[0..] == s;
  }

  /** Whole digits not followed by a point are the whole mantissa. */
  lemma WholeMantissa(body: string, n: nat)
    requires 0 < n == LeadingDigits(body)
    requires n == |body| || body[n] != '.'
    ensures ScanMantissa(body) == Mantissa(body[..n], false, [], n)
  {
  }

  /** Whole digits, a point and fraction digits, with a digit on at least one side of the point. */
  lemma PointMantissa(body: string, n: nat, f: nat)
    requires n == LeadingDigits(body) && n < |body| && body[n] == '.'
    requires f == LeadingDigits(body[n + 1..]) && 0 < n + f
    ensures ScanMantissa(body) == Mantissa(body[..n], true, body[n + 1..n + 1 + f], n + 1 + f)
  {
    assert body[n..][1..] == body[n + 1..];
    assert body[n + 1..][..f] == body[n + 1..n + 1 + f];
  }

  /** A numeral is its mantissa followed by the exponent, if any, in what comes after it. */
  lemma ScanTail(negative: bool, body: string, offset: nat, m: Mantissa, tail: string)
    requires ScanMantissa(body) == m && 0 < m.length && body[m.length..] == tail
    ensures var e := ExponentLength(tail);
            ScanUnsigned(negative, body, offset)
            == Numeral(Number(negative, m.whole, m.point, m.fraction, e > 0, if e > 0 then ExponentValue(tail) else 0), offset + m.length + e)
  {
  }

  lemma FractionMantissa(ds: string, fs: string)
    requires AllDigits(ds) && AllDigits(fs) && 0 < |ds|
    ensures var s := ds + "." + fs;
            ScanMantissa(s) == Mantissa(ds, true, fs, |ds| + 1 + |fs|) && s[|ds| + 1 + |fs|..] == []
  {
    var s := ds + "." + fs;
    assert s == ds + ("." + fs);
    LeadingDigitsAppend(ds, "." + fs);
    assert s[|ds|] == '.' && s[..|ds|] == ds;
    assert s[|ds| + 1..] == fs;
    LeadingDigitsOfDigits(fs);
    assert s[|ds| + 1..|ds| + 1 + |fs|] == fs;
    PointMantissa(s, |ds|, |fs|);
  }

  lemma ScanFraction(ds: string, fs: string)
    requires ds != [] && AllDigits(ds) && AllDigits(fs)
    ensures ScanNumeral(ds + "." + fs) == Numeral(Number(false, ds, true, fs, false, 0), |ds| + 1 + |fs|)
  {
    var s := ds + "." + fs;
    assert IsDigit(ds[0]) && s[0] == ds[0];
    ScanFromDigit(s);
    FractionMantissa(ds, fs);
    ScanTail(false, s, 0, Mantissa(ds, true, fs, |ds| + 1 + |fs|), []);
  }

  /** A proper fraction of naturals is in [0, 1). */
  lemma ProperFraction(a: nat, b: nat)
    requires a < b
    ensures 0.0 <= a as real / b as real < 1.0
  {
  }

  /** Without sign and exponent, a number is its whole part plus its fraction. */
  lemma UnscaledValue(n: Number)
    requires !n.negative && n.exponent == 0
    ensures NumberValue(n) == DecimalValue(n.whole) as real + DecimalValue(n.fraction) as real / Pow10(|n.fraction|) as real
  {
    assert Pow10(0) == 1;
  }

  /** Truncating a natural plus a proper fraction gives the natural. */
  lemma TruncateProper(w: nat, p: real)
    requires 0.0 <= p < 1.0
    ensures TruncateTowardZero(w as real + p) == w
  {
  }

  /** `(int)` of a positive number with a point and no exponent is its whole part. */
  lemma PointNumberToInt(n: Number)
    requires !n.negative && n.point && !n.scientific && n.exponent == 0
    ensures NumberToInt(n) == DecimalValue(n.whole)
  {
    DecimalValueBound(n.fraction);
    ProperFraction(DecimalValue(n.fraction), Pow10(|n.fraction|));
    UnscaledValue(n);
    TruncateProper(DecimalValue(n.whole), DecimalValue(n.fraction) as real / Pow10(|n.fraction|) as real);
  }

  /** A fraction is cut off: `(int)` of whole digits, a point and fraction digits is the whole part. */
  lemma FractionTruncated(ds: string, fs: string)
    requires ds != [] && AllDigits(ds) && AllDigits(fs)
    ensures StringToInt(ds + "." + fs) == DecimalValue(ds) && IsNumericString(ds + "." + fs)
  {
    ScanFraction(ds, fs);
    PointNumberToInt(Number(false, ds, true, fs, false, 0));
  }

  /** An unsigned exponent is read whole. */
  lemma ExponentOfDigits(es: string)
    requires es != [] && AllDigits(es)
    ensures ExponentLength("e" + es) == 1 + |es| && ExponentValue("e" + es) == DecimalValue(es)
  {
    var e := "e" + es;
    assert e[1..] == es;
    assert IsDigit(es[0]) && e[1] == es[0];
    LeadingDigitsOfDigits(es);
    assert es[..|es|] == es;
  }

  lemma ExponentMantissa(ds: string, es: string)
    requires AllDigits(ds) && 0 < |ds|
    ensures var s := ds + "e" + es;
            ScanMantissa(s) == Mantissa(ds, false, [], |ds|) && s[|ds|..] == "e" + es
  {
    var s := ds + "e" + es;
    assert s == ds + ("e" + es);
    LeadingDigitsAppend(ds, "e" + es);
    assert s[|ds|] == 'e' && s[..|ds|] == ds;
    WholeMantissa(s, |ds|);
  }

  lemma ScanExponent(ds: string, es: string)
    requires ds != [] && es != [] && AllDigits(ds) && AllDigits(es)
    ensures ScanNumeral(ds + "e" + es) == Numeral(Number(false, ds, false, [], true, DecimalValue(es)), |ds| + 1 + |es|)
  {
    var s := ds + "e" + es;
    assert IsDigit(ds[0]) && s[0] == ds[0];
    ScanFromDigit(s);
    ExponentMantissa(ds, es);
    ExponentOfDigits(es);
    ScanTail(false, s, 0, Mantissa(ds, false, [], |ds|), "e" + es);
  }

  /** With a non-negative exponent and no fraction, a number is its whole part times a power of ten. */
  lemma ScaledValue(n: Number)
    requires !n.negative && n.fraction == [] && n.exponent >= 0
    ensures NumberValue(n) == (DecimalValue(n.whole) * Pow10(n.exponent)) as real
  {
    assert DecimalValue(n.fraction) == 0 && Pow10(|n.fraction|) == 1;
  }

  /** An exponent scales: `(int)` of digits, `e` and digits is the whole part times that power of ten. */
  lemma ExponentScales(ds: string, es: string)
    requires ds != [] && es != [] && AllDigits(ds) && AllDigits(es)
    ensures StringToInt(ds + "e" + es) == DecimalValue(ds) * Pow10(DecimalValue(es)) && IsNumericString(ds + "e" + es)
  {
    ScanExponent(ds, es);
    ScaledValue(Number(false, ds, false, [], true, DecimalValue(es)));
  }

  /** `(int) $value`. */
  function IntCast(v: Value): int
  {
    match v
    case NullV => 0
    case BoolV(b) => if b then 1 else 0
    case IntV(i) => i
    case FloatV(r) => TruncateTowardZero(r)
    case StrV(s) => StringToInt(s)
  }

  /** `(bool) $value`: null, false, 0, 0.0, "" and "0" are false. */
  function BoolCast(v: Value): bool
  {
    match v
    case NullV => false
    case BoolV(b) => b
    case IntV(i) => i != 0
    case FloatV(r) => r != 0.0
    case StrV(s) => s != "" && s != "0"
  }

  /** A numeric string: leading whitespace, then a numeral that runs to the end of the string. */
  predicate IsNumericString(s: string)
  {
    var n := ScanNumeral(s);
    0 < n.length == |s|
  }

  /** `is_numeric($value)`. */
  predicate IsNumeric(v: Value)
  {
    match v
    case IntV(_) => true
    case FloatV(_) => true
    case StrV(s) => IsNumericString(s)
    case _ => false
  }
}
