/**
 * Integer <-> text conversions used on both sides: how a number is written
 * into a DOM property or a Python f-string, JavaScript's `parseInt` and
 * Python's `int()` applied to a string.
 */
module Decimal {
  import opened Wrappers
  import opened Text

  function DigitChar(d: nat): (c: char)
    requires d < 10
    ensures IsDigit(c)
  {
    "0123456789"[d]
  }

  /** Value of `c` as a digit in base `radix` (10 or 16), or None. */
  function DigitValue(c: char, radix: nat): (v: Option<nat>)
    ensures v.Some? ==> v.value < radix
  {
    if IsDigit(c) && (c as int) - ('0' as int) < radix then Some((c as int) - ('0' as int))
    else if radix == 16 && 'a' <= c <= 'f' then Some((c as int) - ('a' as int) + 10)
    else if radix == 16 && 'A' <= c <= 'F' then Some((c as int) - ('A' as int) + 10)
    else None
  }

  predicate AllDigits(ds: string, radix: nat)
  {
    forall i :: 0 <= i < |ds| ==> DigitValue(ds[i], radix).Some?
  }

  /** The number written by the digit string `ds`, most significant digit first. */
  function DigitsValue(ds: string, radix: nat): (v: nat)
    requires AllDigits(ds, radix)
  {
    if ds == [] then 0
    else DigitsValue(ds[..|ds| - 1], radix) * radix + DigitValue(ds[|ds| - 1], radix).value
  }

  /** The longest prefix of `s` made of base-`radix` digits. */
  function LeadingDigits(s: string, radix: nat): (r: string)
    ensures |r| <= |s| && r == s[..|r|]
    ensures AllDigits(r, radix)
    ensures |r| < |s| ==> DigitValue(s[|r|], radix).None?
  {
    if s != [] && DigitValue(s[0], radix).Some? then [s[0]] + LeadingDigits(s[1..], radix) else []
  }

  /** Decimal text of a natural number, without leading zeros. */
  function NatToString(n: nat): (r: string)
    ensures r != [] && AllDigits(r, 10)
    ensures |r| > 1 ==> r[0] != '0'
    decreases n
  {
    if n < 10 then [DigitChar(n)] else NatToString(n / 10) + [DigitChar(n % 10)]
  }

  /** Decimal text of an integer: what `String(n)` and `f'{n}'` produce. */
  function IntToString(n: int): (r: string)
    ensures r != []
    ensures n < 0 <==> r[0] == '-'
  {
    if n < 0 then "-" + NatToString(-n) else NatToString(n)
  }

  /**
   * The global `parseInt(s)` with no radix argument: skip leading white
   * space, read an optional sign, then the magnitude; None stands for NaN.
   */
  function ParseInt(s: string): (r: Option<int>)
  {
    ParseSigned(StripStart(s, IsJsSpace))
  }

  /** An optional sign, then the magnitude. */
  function ParseSigned(t: string): (r: Option<int>)
  {
    if t != [] && t[0] == '-' then Negated(ParseMagnitude(t[1..]))
    else if t != [] && t[0] == '+' then ParseMagnitude(t[1..])
    else ParseMagnitude(t)
  }

  function Negated(m: Option<nat>): (r: Option<int>)
    ensures r.Some? <==> m.Some?
  {
    match m
    case None => None
    case Some(v) => Some(-(v as int))
  }

  /**
   * The digits after the sign: base 16 after a `0x`/`0X` prefix, base 10
   * otherwise; the longest run of digits is read and the rest ignored.
   */
  function ParseMagnitude(u: string): (r: Option<nat>)
  {
    var hex := |u| >= 2 && u[0] == '0' && (u[1] == 'x' || u[1] == 'X');
    var radix := if hex then 16 else 10;
    var ds := LeadingDigits(if hex then u[2..] else u, radix);
    if ds == [] then None else Some(DigitsValue(ds, radix))
  }

  lemma {:induction false} DigitsValueOfNatToString(n: nat)
    ensures DigitsValue(NatToString(n), 10) == n
    decreases n
  {
    var r := NatToString(n);
    if n >= 10 {
      DigitsValueOfNatToString(n / 10);
      assert r[..|r| - 1] == NatToString(n / 10);
    }
  }

  lemma LeadingDigitsOfDigits(ds: string, radix: nat)
    requires AllDigits(ds, radix)
    ensures LeadingDigits(ds, radix) == ds
  {
    if ds != [] {
      LeadingDigitsOfDigits(ds[1..], radix);
    }
  }

  lemma ParseMagnitudeOfNatToString(n: nat)
    ensures ParseMagnitude(NatToString(n)) == Some(n)
  {
    var u := NatToString(n);
    assert |u| >= 2 ==> DigitValue(u[1], 10).Some?;
    LeadingDigitsOfDigits(u, 10);
    DigitsValueOfNatToString(n);
  }

  /** Reading back a number written into a DOM property gives the same number. */
  lemma ParseIntOfIntToString(n: int)
    ensures ParseInt(IntToString(n)) == Some(n)
  {
    if n < 0 {
      ParseIntOfNegative(IntToString(n), -n);
    } else {
      ParseIntOfNatToString(IntToString(n), n);
    }
  }

  lemma ParseIntOfNatToString(s: string, m: nat)
    requires s == NatToString(m)
    ensures ParseInt(s) == Some(m)
  {
    StripStartOfDigit(s);
    assert ParseSigned(s) == ParseMagnitude(s) by {
      assert IsDigit(s[0]);
    }
    ParseMagnitudeOfNatToString(m);
  }

  lemma ParseIntOfNegative(s: string, m: nat)
    requires m > 0 && s == "-" + NatToString(m)
    ensures ParseInt(s) == Some(-(m as int))
  {
    StripStartOfMinus(s);
    var digits := NatToString(m);
    assert s[1..] == digits;
    ParseMagnitudeOfNatToString(m);
    assert ParseSigned(s) == Negated(ParseMagnitude(digits));
  }

  lemma StripStartOfDigit(s: string)
    requires s != [] && IsDigit(s[0])
    ensures StripStart(s, IsJsSpace) == s
  {
    assert !IsJsSpace(s[0]);
  }

  lemma StripStartOfMinus(s: string)
    requires s != [] && s[0] == '-'
    ensures StripStart(s, IsJsSpace) == s
  {
    assert !IsJsSpace(s[0]);
  }

  /**
   * Python's `int(s)` for a string: surrounding white space (as `int()`
   * counts it) is ignored, an optional sign comes first, and single
   * underscores may separate digits.
   */
  function PyParseInt(s: string): (r: Option<int>)
  {
    var t := Strip(s, IsPyIntSpace);
    if t != [] && t[0] == '-' then
      Negated(PyParseDigits(t[1..]))
    else if t != [] && t[0] == '+' then PyParseDigits(t[1..])
    else PyParseDigits(t)
  }

  function PyParseDigits(u: string): (r: Option<nat>)
  {
    if IsPyDigitGroup(u) then Some(DigitsValue(WithoutUnderscores(u), 10)) else None
  }

  /** Decimal digits, possibly separated by single underscores, neither first nor last. */
  predicate IsPyDigitGroup(u: string)
  {
    && u != []
    && IsDigit(u[0]) && IsDigit(u[|u| - 1])
    && (forall i :: 0 <= i < |u| ==> IsDigit(u[i]) || u[i] == '_')
    && (forall i :: 0 <= i < |u| - 1 ==> !(u[i] == '_' && u[i + 1] == '_'))
  }

  function WithoutUnderscores(u: string): (r: string)
    requires forall i :: 0 <= i < |u| ==> IsDigit(u[i]) || u[i] == '_'
    ensures AllDigits(r, 10)
  {
    if u == [] then [] else (if u[0] == '_' then [] else [u[0]]) + WithoutUnderscores(u[1..])
  }

  /** Python's `int()` accepts every decimal text `f'{n}'` produces and returns `n`. */
  lemma PyParseIntOfIntToString(n: int)
    ensures PyParseInt(IntToString(n)) == Some(n)
  {
    var s := IntToString(n);
    assert !IsPyIntSpace(s[0]) && !IsPyIntSpace(s[|s| - 1]);
    StripOfTrimmed(s, IsPyIntSpace);
    var m: nat := if n < 0 then -n else n;
    PyParseDigitsOfNatToString(m);
    if n < 0 {
      assert s[1..] == NatToString(m);
    }
  }

  /** A leading file separator (U+001C) is white space to `str.strip()` but not to `int()`, which refuses the text. */
  lemma PyParseIntRefusesSeparator(s: string)
    ensures PyParseInt("\U{1C}" + s) == None
    ensures IsPySpace('\U{1C}')
  {
    var u := "\U{1C}" + s;
    assert !IsPyIntSpace(u[0]);
    var t := Strip(u, IsPyIntSpace);
    assert StripStart(u, IsPyIntSpace) == u;
    assert t != [] && t == u[..|t|];
    assert t[0] == '\U{1C}';
  }

  lemma PyParseDigitsOfNatToString(m: nat)
    ensures PyParseDigits(NatToString(m)) == Some(m)
  {
    var digits := NatToString(m);
    NoUnderscores(digits);
    DigitsValueOfNatToString(m);
  }

  lemma NoUnderscores(ds: string)
    requires forall i :: 0 <= i < |ds| ==> IsDigit(ds[i])
    ensures WithoutUnderscores(ds) == ds
  {
    if ds != [] {
      NoUnderscores(ds[1..]);
    }
  }
}
