/**
  JavaScript values as the server and client code see them: optional
  values (undefined/null), thrown exceptions, the field values of a
  document, JavaScript truthiness of an optional string, and the decimal
  form `Number.prototype.toString` gives an integer.
 */
module JsValues {

  /** `undefined` (or `null`) versus a present value. */
  datatype Option<+T> = None | Some(value: T) {
    /** The value, or `default` when absent (a JavaScript default parameter). */
    function GetOr(default: T): T {
      if Some? then value else default
    }
  }

  /** A call that either returns a value or throws. */
  datatype Outcome<+T> = Return(value: T) | Throw(error: string)

  /** The field values a stored or formatted document can hold. */
  datatype Value =
    | Null
    | Bool(b: bool)
    | Int(n: int)
    | Str(s: string)
    | ObjectId(hex: string)

  /** A plain object: field name to value; an absent key is `undefined`. */
  type Doc = map<string, Value>

  /** `!!s` for an optional string: undefined, null and "" are falsy. */
  predicate Truthy(s: Option<string>) {
    s.Some? && s.value != ""
  }

  predicate IsDigit(c: char) {
    '0' <= c <= '9'
  }

  predicate AllDigits(s: string) {
    forall i :: 0 <= i < |s| ==> IsDigit(s[i])
  }

  function DigitChar(d: nat): (c: char)
    requires d < 10
    ensures IsDigit(c) && c as int - '0' as int == d
  {
    (d + '0' as int) as char
  }

  /** The decimal digits of a natural number, as `String(n)` writes them. */
  function NatToDecimal(n: nat): (r: string)
    ensures |r| >= 1 && AllDigits(r)
    ensures r[0] == '0' ==> n == 0
  {
    if n < 10 then [DigitChar(n)] else NatToDecimal(n / 10) + [DigitChar(n % 10)]
  }

  /** The number a string of decimal digits denotes (its parser). */
  function DecimalValue(s: string): nat
    requires AllDigits(s)
  {
    if s == [] then 0
    else DecimalValue(s[..|s| - 1]) * 10 + (s[|s| - 1] as int - '0' as int)
  }

  /** Parsing the decimal form gives the number back. */
  lemma {:induction false} DecimalRoundTrip(n: nat)
    ensures DecimalValue(NatToDecimal(n)) == n
  {
    if n >= 10 {
      var s := NatToDecimal(n);
      assert s[..|s| - 1] == NatToDecimal(n / 10);
      DecimalRoundTrip(n / 10);
    }
  }

  /** Distinct numbers have distinct decimal forms. */
  lemma NatToDecimalInjective(m: nat, n: nat)
    ensures NatToDecimal(m) == NatToDecimal(n) ==> m == n
  {
    DecimalRoundTrip(m);
    DecimalRoundTrip(n);
  }

  /** `String(n)` for an integer: a minus sign before the digits of `-n`. */
  function IntToString(n: int): (r: string)
    ensures |r| >= 1
    ensures n < 0 <==> r[0] == '-'
    ensures n >= 0 ==> AllDigits(r) && DecimalValue(r) == n
    ensures n < 0 ==> AllDigits(r[1..]) && DecimalValue(r[1..]) == -n
  {
    DecimalRoundTrip(if n < 0 then -n else n);
    if n < 0 then "-" + NatToDecimal(-n) else NatToDecimal(n)
  }

  /** `v.toString()`: throws on null, as JavaScript does. */
  function Stringify(v: Value): (r: Outcome<string>)
    ensures r.Throw? <==> v == Null
    ensures v.Str? ==> r == Return(v.s)
    ensures v.ObjectId? ==> r == Return(v.hex)
  {
    match v
    case Null => Throw("TypeError: Cannot read properties of null (reading 'toString')")
    case Bool(b) => Return(if b then "true" else "false")
    case Int(n) => Return(IntToString(n))
    case Str(s) => Return(s)
    case ObjectId(h) => Return(h)
  }
}
