/** The JavaScript semantics the client leans on: parsed JSON values, truthiness,
    conversion to string, property reads that throw on `null`, and what a
    `catch` block receives. */
module Js {
  import opened Wrappers

  /** A value produced by `response.json()`. `JNum` holds only integers that a
      JavaScript number represents exactly and that `String()` writes without
      an exponent: magnitude at most 2^53. */
  datatype JsonValue =
    | JNull
    | JBool(b: bool)
    | JNum(n: SafeInteger)
    | JStr(s: string)
    | JObj(fields: map<string, JsonValue>)

  /** 2^53: every integer up to this magnitude is a JavaScript number exactly. */
  const MaxSafe := 0x20_0000_0000_0000

  /** The integers `JSON.parse` keeps exactly and `String()` writes without an exponent. */
  type SafeInteger = n: int | -MaxSafe <= n <= MaxSafe

  /** What a `catch` clause receives: an `Error` with its message, or something else. */
  datatype Thrown = Error(message: string) | NonError

  /** JavaScript truthiness, as used by `||`, `!` and `if`. */
  predicate Truthy(v: JsonValue) {
    match v
    case JNull => false
    case JBool(b) => b
    case JNum(n) => n != 0
    case JStr(s) => s != ""
    case JObj(_) => true
  }

  /** JavaScript truthiness of a `string | null`: present and not empty. */
  predicate TruthyText(o: Option<string>) {
    o.Some? && o.value != ""
  }

  predicate IsDigit(c: char) {
    '0' <= c <= '9'
  }

  function DigitChar(d: nat): (c: char)
    requires d < 10
    ensures IsDigit(c)
  {
    ('0' as int + d) as char
  }

  function DigitValue(c: char): (d: nat)
    requires IsDigit(c)
    ensures d < 10
  {
    c as int - '0' as int
  }

  /** `String(n)` for a non-negative integer: its decimal digits, no leading zero. */
  function NatToDecimal(n: nat): (r: string)
    ensures |r| > 0
    ensures forall i :: 0 <= i < |r| ==> IsDigit(r[i])
    ensures |r| > 1 ==> r[0] != '0'
    decreases n
  {
    if n < 10 then [DigitChar(n)] else NatToDecimal(n / 10) + [DigitChar(n % 10)]
  }

  /** The number a string of decimal digits denotes. */
  function DecimalValue(s: string): nat
    requires forall i :: 0 <= i < |s| ==> IsDigit(s[i])
  {
    if s == [] then 0 else DecimalValue(s[..|s| - 1]) * 10 + DigitValue(s[|s| - 1])
  }

  /** Reading the decimal text back gives the number: `String` loses nothing. */
  lemma {:induction false} DecimalRoundTrip(n: nat)
    ensures DecimalValue(NatToDecimal(n)) == n
    decreases n
  {
    var r := NatToDecimal(n);
    if n >= 10 {
      DecimalRoundTrip(n / 10);
      assert r[..|r| - 1] == NatToDecimal(n / 10);
    }
  }

  /** Distinct numbers have distinct decimal texts. */
  lemma DecimalInjective(a: nat, b: nat)
    requires NatToDecimal(a) == NatToDecimal(b)
    ensures a == b
  {
    DecimalRoundTrip(a);
    DecimalRoundTrip(b);
  }

  /** `String(n)` for an integer held by `JNum` (magnitude at most 2^53, where
      JavaScript writes plain decimal digits). */
  function IntToDecimal(i: int): (r: string)
    ensures |r| > 0
    ensures i < 0 <==> r[0] == '-'
  {
    if i < 0 then "-" + NatToDecimal(-i) else NatToDecimal(i)
  }

  /** `String(v)`, as template literals and `new Error(v)` apply it. */
  function ToJsString(v: JsonValue): (r: string)
    ensures Truthy(v) ==> |r| > 0
    ensures v.JStr? ==> r == v.s
  {
    match v
    case JNull => "null"
    case JBool(b) => if b then "true" else "false"
    case JNum(n) => IntToDecimal(n)
    case JStr(s) => s
    case JObj(_) => "[object Object]"
  }

  /** The message of the TypeError a property read on `null` throws (V8 wording). */
  function NullReadMessage(key: string): string {
    "Cannot read properties of null (reading '" + key + "')"
  }

  /** `v[key]` for a key that is no built-in property: throws on `null`, is
      `undefined` (None) on a primitive or an object without that key. */
  function Get(v: JsonValue, key: string): (r: Result<Option<JsonValue>, Thrown>)
    ensures r.Err? <==> v.JNull?
    ensures r.Err? ==> r.error == Error(NullReadMessage(key))
    ensures r.Ok? && r.value.Some? <==> v.JObj? && key in v.fields
    ensures r.Ok? && r.value.Some? ==> r.value.value == v.fields[key]
  {
    match v
    case JNull => Err(Error(NullReadMessage(key)))
    case JObj(fields) => Ok(if key in fields then Some(fields[key]) else None)
    case _ => Ok(None)
  }
}
