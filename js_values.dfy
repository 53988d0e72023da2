/**
 * The slice of JavaScript value semantics the flex item relies on: the values a
 * prop can hold, truthiness, `Array.prototype.indexOf` and the string
 * conversion a template literal applies to a value.
 */
module JsValues {

  /**
   * A JavaScript value as a prop of the flex item can receive it. Numbers are
   * modelled as reals, so fractional numbers are representable; NaN, the
   * infinities and -0 are not (none of them occurs in any table of the item).
   */
  datatype Value = Undefined | Null | Bool(b: bool) | Num(n: real) | Str(s: string)

  /** ToBoolean: `undefined`, `null`, `false`, `0` and `''` are falsy. */
  predicate Truthy(v: Value) {
    match v
    case Undefined => false
    case Null => false
    case Bool(b) => b
    case Num(n) => n != 0.0
    case Str(s) => s != ""
  }

  /**
   * `list.indexOf(v)`: the index of the first element strictly equal to `v`,
   * or -1. On the values modelled here strict equality is structural equality,
   * and so is the SameValueZero comparison of `includes`.
   */
  function IndexOf(list: seq<Value>, v: Value): (r: int)
    ensures -1 <= r < |list|
    ensures r == -1 <==> v !in list
    ensures 0 <= r ==> list[r] == v && v !in list[..r]
  {
    if list == [] then -1
    else if list[0] == v then 0
    else
      var i := IndexOf(list[1..], v);
      if i == -1 then -1 else i + 1
  }

  /** A real with no fractional part. */
  predicate IsWhole(x: real) {
    x.Floor as real == x
  }

  function Digit(d: int): (c: char)
    requires 0 <= d < 10
    ensures '0' <= c <= '9'
    ensures c as int - '0' as int == d
  {
    ('0' as int + d) as char
  }

  /** The decimal digits of a natural number, without leading zeros. */
  function DecimalText(n: nat): (r: string)
    ensures |r| >= 1
    ensures forall i :: 0 <= i < |r| ==> '0' <= r[i] <= '9'
    ensures n < 10 <==> |r| == 1
  {
    if n < 10 then [Digit(n)] else DecimalText(n / 10) + [Digit(n % 10)]
  }

  /** Distinct numbers print differently. */
  lemma {:induction false} DecimalTextInjective(a: nat, b: nat)
    requires DecimalText(a) == DecimalText(b)
    ensures a == b
  {
    if a >= 10 && b >= 10 {
      var ta, tb := DecimalText(a), DecimalText(b);
      assert ta[..|ta| - 1] == DecimalText(a / 10);
      assert tb[..|tb| - 1] == DecimalText(b / 10);
      assert ta[|ta| - 1] == Digit(a % 10);
      assert tb[|tb| - 1] == Digit(b % 10);
      DecimalTextInjective(a / 10, b / 10);
    }
  }

  /**
   * Below this magnitude `String` prints a whole number in plain decimal
   * notation; from 1e21 on it switches to exponent form (`"1e+21"`).
   */
  const PLAIN_LIMIT: real := 1000000000000000000000.0

  /** A number `String` prints digit by digit: whole and below 1e21 in magnitude. */
  predicate IsPlainWhole(x: real) {
    IsWhole(x) && -PLAIN_LIMIT < x < PLAIN_LIMIT
  }

  /**
   * `String(v)`, as `${v}` in a template literal. Only whole numbers below
   * 1e21 in magnitude are converted; the flex item never converts another
   * number.
   */
  function ToJsString(v: Value): (r: string)
    requires v.Num? ==> IsPlainWhole(v.n)
    ensures v.Num? ==> |r| >= 1 && (r[0] == '-' <==> v.n < 0.0)
    ensures v.Num? && 0.0 <= v.n ==> forall i :: 0 <= i < |r| ==> '0' <= r[i] <= '9'
  {
    match v
    case Undefined => "undefined"
    case Null => "null"
    case Bool(b) => if b then "true" else "false"
    case Num(n) => if n.Floor < 0 then "-" + DecimalText(-n.Floor) else DecimalText(n.Floor)
    case Str(s) => s
  }

  /** Distinct numbers convert to distinct strings. */
  lemma NumberTextInjective(x: real, y: real)
    requires IsPlainWhole(x) && IsPlainWhole(y)
    requires ToJsString(Num(x)) == ToJsString(Num(y))
    ensures x == y
  {
    assert (x < 0.0) == (y < 0.0);
    if x < 0.0 {
      NegativeText(x);
      NegativeText(y);
      DecimalTextInjective(-x.Floor, -y.Floor);
    } else {
      DecimalTextInjective(x.Floor, y.Floor);
    }
    assert x.Floor == y.Floor;
  }

  /** A negative whole number prints as `-` and the digits of its magnitude. */
  lemma NegativeText(x: real)
    requires IsPlainWhole(x) && x < 0.0
    ensures -x.Floor >= 0 && ToJsString(Num(x))[1..] == DecimalText(-x.Floor)
  {
  }

  /** The falsy values are exactly `undefined`, `null`, `false`, `0` and `''`. */
  lemma FalsyValues(v: Value)
    ensures !Truthy(v) <==> v == Undefined || v == Null || v == Bool(false) || v == Num(0.0) || v == Str("")
  {
  }
}
