/** The few JavaScript value semantics the app's logic depends on: optional
    properties that may be missing or null, the `??` operator, truthiness of
    strings, and the IEEE-754 arithmetic behind the discount derivation. */
module Js {

  datatype Option<T> = None | Some(value: T)

  /** A property read from a loosely typed object (a JSON record, a route
      parameter): absent (`undefined`), explicitly `null`, or present. */
  datatype Field<T> = Undefined | Null | Defined(value: T)
  {
    predicate IsNullish() { !Defined? }
  }

  /** `f ?? d`: the right operand only when the left one is null or undefined. */
  function Coalesce<T>(f: Field<T>, d: T): T
  {
    if f.Defined? then f.value else d
  }

  /** Truthiness of an optional string: `undefined`, `null` and `""` are falsy. */
  predicate Truthy(s: Field<string>)
  {
    s.Defined? && s.value != ""
  }

  /** A JavaScript number. Finite doubles are idealised as reals (rounding
      error and the sign of zero are not modelled); the infinities and NaN
      are kept because the arithmetic below can produce them. */
  datatype Number = Finite(value: real) | Infinity(positive: bool) | NaN

  function FromInt(n: int): Number
  {
    Finite(n as real)
  }

  /** An integer-valued property seen as a possibly nullish number. */
  function NumberField(f: Field<int>): Field<Number>
  {
    match f
    case Undefined => Undefined
    case Null => Null
    case Defined(v) => Defined(FromInt(v))
  }

  /** The ToNumber conversion that `-` applies to its operands:
      `undefined` becomes NaN and `null` becomes 0. */
  function ToNumber(f: Field<int>): Number
  {
    match f
    case Undefined => NaN
    case Null => Finite(0.0)
    case Defined(v) => FromInt(v)
  }

  function Sub(x: Number, y: Number): Number
  {
    match (x, y)
    case (NaN, _) => NaN
    case (_, NaN) => NaN
    case (Infinity(p), Infinity(q)) => if p == q then NaN else Infinity(p)
    case (Infinity(p), Finite(_)) => Infinity(p)
    case (Finite(_), Infinity(q)) => Infinity(!q)
    case (Finite(a), Finite(b)) => Finite(a - b)
  }

  function Mul(x: Number, y: Number): Number
  {
    match (x, y)
    case (NaN, _) => NaN
    case (_, NaN) => NaN
    case (Infinity(p), Infinity(q)) => Infinity(p == q)
    case (Infinity(p), Finite(b)) => if b == 0.0 then NaN else Infinity(p == (b > 0.0))
    case (Finite(a), Infinity(q)) => if a == 0.0 then NaN else Infinity(q == (a > 0.0))
    case (Finite(a), Finite(b)) => Finite(a * b)
  }

  function Div(x: Number, y: Number): Number
  {
    match (x, y)
    case (NaN, _) => NaN
    case (_, NaN) => NaN
    case (Infinity(_), Infinity(_)) => NaN
    case (Infinity(p), Finite(b)) => Infinity(p == (b >= 0.0))
    case (Finite(_), Infinity(_)) => Finite(0.0)
    case (Finite(a), Finite(b)) =>
      if b != 0.0 then Finite(a / b)
      else if a == 0.0 then NaN
      else Infinity(a > 0.0)
  }

  /** `Math.round`: the nearest integer, halves rounded up; NaN and the
      infinities are returned unchanged. */
  function Round(x: Number): (r: Number)
    ensures x.Finite? ==> r.Finite? && r.value.Floor as real == r.value
    ensures x.Finite? ==> x.value - 0.5 < r.value <= x.value + 0.5
    ensures !x.Finite? ==> r == x
  {
    if x.Finite? then FromInt((x.value + 0.5).Floor) else x
  }

  /** The character of a decimal digit. */
  function DigitChar(d: int): (c: char)
    requires 0 <= d < 10
    ensures '0' <= c <= '9' && c as int - '0' as int == d
  {
    ('0' as int + d) as char
  }

  /** `String(n)` for a non-negative integer: its decimal digits, most
      significant first, with no leading zero. */
  function DecimalString(n: nat): (s: string)
    ensures |s| >= 1 && (|s| == 1 <==> n < 10)
    ensures forall i :: 0 <= i < |s| ==> '0' <= s[i] <= '9'
    ensures |s| > 1 ==> s[0] != '0'
  {
    if n < 10 then [DigitChar(n)] else DecimalString(n / 10) + [DigitChar(n % 10)]
  }

  /** The number a string of decimal digits denotes. */
  function DecimalValue(s: string): nat
    requires forall i :: 0 <= i < |s| ==> '0' <= s[i] <= '9'
  {
    if s == [] then 0
    else DecimalValue(s[..|s| - 1]) * 10 + (s[|s| - 1] as int - '0' as int)
  }

  /** `String(n)` loses nothing: reading the digits back gives `n`. */
  lemma {:induction false} DecimalStringRoundTrip(n: nat)
    ensures DecimalValue(DecimalString(n)) == n
  {
    var s := DecimalString(n);
    if n >= 10 {
      DecimalStringRoundTrip(n / 10);
      assert s[..|s| - 1] == DecimalString(n / 10);
    }
  }

  /** `s.length`: JavaScript strings count UTF-16 code units, so a
      character outside the Basic Multilingual Plane counts twice. */
  function Utf16Length(s: string): nat
  {
    if s == [] then 0 else Utf16Length(s[..|s| - 1]) + (if s[|s| - 1] as int > 0xFFFF then 2 else 1)
  }

  /** On text inside the Basic Multilingual Plane, `length` is the number
      of characters. */
  lemma {:induction false} Utf16LengthBmp(s: string)
    requires forall i :: 0 <= i < |s| ==> s[i] as int <= 0xFFFF
    ensures Utf16Length(s) == |s|
  {
    if s != [] {
      Utf16LengthBmp(s[..|s| - 1]);
    }
  }
}
