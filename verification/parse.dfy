/** `parseFloat` on one token: leading white space, a sign, then the longest decimal-literal prefix. */
module Parse {
  import opened Numbers
  import opened Decimal
  import opened Rendering

  /** White space and line terminators that `parseFloat` skips before the literal. */
  predicate IsStrWhiteSpace(c: char)
  {
    c in {'\t', '\n', '\U{0B}', '\U{0C}', '\r', ' ', '\U{A0}', '\U{1680}', '\U{2000}', '\U{2001}',
          '\U{2002}', '\U{2003}', '\U{2004}', '\U{2005}', '\U{2006}', '\U{2007}', '\U{2008}',
          '\U{2009}', '\U{200A}', '\U{2028}', '\U{2029}', '\U{202F}', '\U{205F}', '\U{3000}', '\U{FEFF}'}
  }

  /** Length of the leading white space of s. */
  function LeadingSpace(s: string): (n: nat)
    ensures n <= |s|
    ensures forall i :: 0 <= i < n ==> IsStrWhiteSpace(s[i])
    ensures n < |s| ==> !IsStrWhiteSpace(s[n])
  {
    if s == [] || !IsStrWhiteSpace(s[0]) then 0 else 1 + LeadingSpace(s[1..])
  }

  function Negate(n: Num): Num
  {
    match n
    case Finite(x) => Finite(-x)
    case PosInf => NegInf
    case NegInf => PosInf
    case _ => n
  }

  /** 10 to the power e, for any integer e. */
  function Scale(e: int): (s: real)
    ensures s > 0.0
  {
    if e >= 0 then Pow10(e) as real else 1.0 / Pow10(-e) as real
  }

  /** The value of the digits after a decimal point. */
  function Fraction(ds: string): real
    requires AllDigits(ds)
  {
    DigitsValue(ds) as real / Pow10(|ds|) as real
  }

  /** The exponent written at the start of rest (`e`, an optional sign, digits), or 0 when there is none. */
  function Exponent(rest: string): int
  {
    if |rest| < 2 || (rest[0] != 'e' && rest[0] != 'E') then 0
    else
      var body := if rest[1] == '+' || rest[1] == '-' then rest[2..] else rest[1..];
      var k := DigitRun(body);
      if k == 0 then 0
      else if rest[1] == '-' then -(DigitsValue(body[..k]) as int)
      else DigitsValue(body[..k])
  }

  const InfinityText := "Infinity"

  /** The longest prefix of t that is an unsigned decimal literal, or NaN when there is none. */
  function ParseUnsigned(t: string): (n: Num)
    ensures n.Finite? || n.NaN? || n.PosInf?
  {
    if InfinityText <= t then PosInf
    else
      var i := DigitRun(t);
      if i < |t| && t[i] == '.' then
        var tail := t[i + 1..];
        var f := DigitRun(tail);
        if i == 0 && f == 0 then NaN
        else Finite((DigitsValue(t[..i]) as real + Fraction(tail[..f])) * Scale(Exponent(tail[f..])))
      else if i == 0 then NaN
      else Finite(DigitsValue(t[..i]) as real * Scale(Exponent(t[i..])))
  }

  /** The global `parseFloat`: never `undefined`, NaN when no literal starts the token. */
  function ParseFloat(s: string): (n: Num)
    ensures !n.Undefined?
  {
    var t := s[LeadingSpace(s)..];
    if |t| > 0 && t[0] == '-' then Negate(ParseUnsigned(t[1..]))
    else if |t| > 0 && t[0] == '+' then ParseUnsigned(t[1..])
    else ParseUnsigned(t)
  }

  lemma ParseNatText(n: nat)
    ensures ParseUnsigned(NatText(n)) == Finite(n as real)
  {
    var t := NatText(n);
    DigitRunOfDigits(t);
    assert t[..|t|] == t;
    assert !(InfinityText <= t) by { assert IsDigit(t[0]); }
  }

  lemma NoLeadingSpace(s: string)
    requires |s| > 0 && (IsDigit(s[0]) || s[0] in "-NI")
    ensures LeadingSpace(s) == 0
  {
  }

  /** An integer's text parses back to that integer. */
  lemma ParseIntText(k: int)
    ensures ParseFloat(IntText(k)) == Finite(k as real)
  {
    var s := IntText(k);
    if k < 0 {
      NoLeadingSpace(s);
      assert s[0..] == s;
      assert s[1..] == NatText(-k);
      ParseNatText(-k);
    } else {
      NoLeadingSpace(s);
      assert s[0..] == s;
      ParseNatText(k);
    }
  }

  /**
   * Parsing reads back what rendering wrote, for every number whose text is fixed:
   * plain integers, NaN and the two infinities.
   */
  lemma ParseShow(n: Num, fmt: Formatter)
    requires !n.Undefined?
    requires n.Finite? ==> IsPlainInteger(n.r)
    ensures ParseFloat(Show(n, fmt)) == n
  {
    match n
    case Finite(x) =>
      ParseIntText(x.Floor);
    case NaN =>
      NoLeadingSpace("NaN");
      assert "NaN"[0..] == "NaN";
      assert DigitRun("NaN") == 0;
    case PosInf =>
      NoLeadingSpace("Infinity");
      assert "Infinity"[0..] == "Infinity";
    case NegInf =>
      NoLeadingSpace("-Infinity");
      assert "-Infinity"[0..] == "-Infinity";
      assert "-Infinity"[1..] == InfinityText;
  }
}
