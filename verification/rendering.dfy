/** Template-literal rendering `${x}` of the values that reach an error message or a result line. */
module Rendering {
  import opened Numbers
  import opened Decimal

  /**
   * How a finite number that is not a plain integer is written (JavaScript's
   * shortest round-trip decimal form). It is a parameter of the model.
   */
  type Formatter = real -> string

  /** JavaScript writes integral numbers below 10^21 in magnitude as plain decimal digits. */
  const PlainIntegerBound: real := 1000000000000000000000.0

  predicate IsPlainInteger(x: real)
  {
    x == x.Floor as real && -PlainIntegerBound < x < PlainIntegerBound
  }

  function IntText(k: int): (s: string)
    ensures |s| >= 1
  {
    if k < 0 then "-" + NatText(-k) else NatText(k)
  }

  /** The fixed texts of the values that are not finite. */
  function SpecialText(n: Num): string
    requires !IsFinite(n)
  {
    match n
    case NaN => "NaN"
    case PosInf => "Infinity"
    case NegInf => "-Infinity"
    case Undefined => "undefined"
  }

  /**
   * `${n}` for a number operand: the fixed texts of the special values, plain decimal
   * digits (with a leading '-' when negative) for integers below 10^21, and the
   * formatter for every other finite value.
   */
  function Show(n: Num, fmt: Formatter): (s: string)
    ensures !IsFinite(n) ==> s == SpecialText(n)
    ensures n.Finite? && IsPlainInteger(n.r) && n.r >= 0.0 ==>
              AllDigits(s) && DigitsValue(s) as real == n.r
    ensures n.Finite? && IsPlainInteger(n.r) && n.r < 0.0 ==>
              |s| >= 2 && s[0] == '-' && AllDigits(s[1..]) && -(DigitsValue(s[1..]) as real) == n.r
    ensures n.Finite? && !IsPlainInteger(n.r) ==> s == fmt(n.r)
  {
    match n
    case Finite(x) => if IsPlainInteger(x) then IntText(x.Floor) else fmt(x)
    case _ => SpecialText(n)
  }

  /** The closed set of values the result writer is given. */
  datatype Value =
    | NumberValue(n: Num)
    | TextValue(s: string)
    | BoolValue(b: bool)
    | PlainObject   // an object literal without its own toString, such as { a: 1, b: 2 }

  /** `${v}` for a value handed to the result writer. */
  function Render(v: Value, fmt: Formatter): (s: string)
    ensures v.NumberValue? ==> s == Show(v.n, fmt)
    ensures v.TextValue? ==> s == v.s
    ensures v.BoolValue? ==> s == (if v.b then "true" else "false")
    ensures v.PlainObject? ==> s == "[object Object]"
  {
    match v
    case NumberValue(n) => Show(n, fmt)
    case TextValue(s) => s
    case BoolValue(b) => if b then "true" else "false"
    case PlainObject => "[object Object]"
  }
}
