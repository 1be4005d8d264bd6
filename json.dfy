/**
 * JavaScript values as the browser script and the proxy handle them: the
 * parsed JSON of requests and upstream replies, JavaScript truthiness,
 * optional-chaining property access and the `String(...)` conversion used
 * when a value is written into a URL.
 *
 * JSON numbers are integers here: every amount is read as a whole number of
 * the smallest currency unit, so sums stay exact.
 */
module Json {

  datatype Option<+T> = None | Some(value: T)

  /** A parsed JSON value. `undefined` is not a JSON value: it is `None` in an `Option<Value>`. */
  datatype Value =
    | Null
    | Bool(b: bool)
    | Num(n: int)
    | Str(s: string)
    | Arr(items: seq<Value>)
    | Obj(fields: map<string, Value>)

  /** JavaScript truthiness: null, false, 0 and "" are falsy; every array and object is truthy. */
  predicate Truthy(v: Value) {
    match v
    case Null => false
    case Bool(b) => b
    case Num(n) => n != 0
    case Str(s) => s != ""
    case Arr(_) => true
    case Obj(_) => true
  }

  /** Truthiness of a value that may be `undefined` (`None`), which is falsy. */
  predicate IsTruthy(o: Option<Value>) {
    o.Some? && Truthy(o.value)
  }

  /**
   * `o?.[key]`, and `o.key` on a value known not to be null: the property of an
   * object, `undefined` for a missing key and for anything that is not an object.
   */
  function Get(o: Option<Value>, key: string): (r: Option<Value>)
    ensures r.Some? <==> o.Some? && o.value.Obj? && key in o.value.fields
    ensures r.Some? ==> r.value == o.value.fields[key]
  {
    if o.Some? && o.value.Obj? && key in o.value.fields then Some(o.value.fields[key]) else None
  }

  /** The property `key` of a field map, `undefined` when absent. */
  function Lookup(m: map<string, Value>, key: string): (r: Option<Value>)
    ensures r.Some? <==> key in m
    ensures r.Some? ==> r.value == m[key]
  {
    if key in m then Some(m[key]) else None
  }

  /**
   * Setting `key` to a value that may be `undefined` in an object that is then
   * sent through `JSON.stringify`: an `undefined` property is dropped from the text.
   */
  function Put(m: map<string, Value>, key: string, o: Option<Value>): (r: map<string, Value>)
    ensures key in r <==> o.Some?
    ensures o.Some? ==> r[key] == o.value
    ensures forall k :: k != key ==> (k in r <==> k in m) && (k in r ==> r[k] == m[k])
  {
    if o.Some? then m[key := o.value] else m - {key}
  }

  function DigitChar(d: nat): (c: char)
    requires d < 10
    ensures '0' <= c <= '9' && c as int - '0' as int == d
  {
    "0123456789"[d]
  }

  /** Decimal digits of a natural number, without leading zeros. */
  function NatText(n: nat): (s: string)
    ensures 1 <= |s|
    ensures forall i :: 0 <= i < |s| ==> '0' <= s[i] <= '9'
    ensures s[0] == '0' ==> n == 0
    decreases n
  {
    if n < 10 then [DigitChar(n)] else NatText(n / 10) + [DigitChar(n % 10)]
  }

  /** The number a string of decimal digits denotes: the reading that `NatText` must invert. */
  function DigitsValue(s: string): int
    decreases |s|
  {
    if s == [] then 0 else 10 * DigitsValue(s[..|s| - 1]) + (s[|s| - 1] as int - '0' as int)
  }

  lemma {:induction false} NatTextRoundTrip(n: nat)
    ensures DigitsValue(NatText(n)) == n
    decreases n
  {
    if n >= 10 {
      NatTextRoundTrip(n / 10);
      var s := NatText(n);
      assert s[..|s| - 1] == NatText(n / 10);
    }
  }

  /** `String(n)` for an integer. */
  function IntText(n: int): (s: string)
    ensures 1 <= |s|
    ensures s[0] == '-' <==> n < 0
  {
    if n < 0 then "-" + NatText(-n) else NatText(n)
  }

  /**
   * `String(v)`, what a template literal or `URLSearchParams` writes for `v`:
   * `undefined` and `null` as words, an array as its elements joined by commas
   * (null elements as empty text), any object as "[object Object]".
   */
  function Text(o: Option<Value>): string {
    if o.None? then "undefined" else ValueText(o.value)
  }

  function ValueText(v: Value): string
    decreases v
  {
    match v
    case Null => "null"
    case Bool(b) => if b then "true" else "false"
    case Num(n) => IntText(n)
    case Str(s) => s
    case Arr(items) => JoinText(items)
    case Obj(_) => "[object Object]"
  }

  function JoinText(items: seq<Value>): string
    decreases items
  {
    if items == [] then ""
    else
      (if items[0].Null? then "" else ValueText(items[0]))
      + (if |items| == 1 then "" else "," + JoinText(items[1..]))
  }
}
