/**
 * The slice of JavaScript value semantics the extension and the script rely on:
 * dynamically shaped JSON data, truthiness, `||`, `??`, optional chaining,
 * indexing, string conversion in template literals, and thrown errors.
 *
 * Numbers are integers only: NaN, -0 and fractions are not modelled.
 */
module JsValues {

  import opened Wrappers

  datatype JsValue =
    | Undefined
    | Null
    | Bool(b: bool)
    | Num(n: int)
    | Str(s: string)
    | Arr(items: seq<JsValue>)
    | Obj(fields: map<string, JsValue>)

  /**
   * A thrown error as the handlers see it: `apiMessage` is
   * `e.response.data.error.message` ("" when absent), `message` is
   * `e.message` ("" when absent) and `text` is `String(e)`.
   */
  datatype Fault = Fault(apiMessage: string, message: string, text: string)

  /** `undefined` or `null`: the values on which `.` throws and `?.` stops. */
  predicate Nullish(v: JsValue) {
    v.Undefined? || v.Null?
  }

  /** JavaScript truthiness. */
  predicate Truthy(v: JsValue) {
    match v
    case Undefined => false
    case Null => false
    case Bool(b) => b
    case Num(n) => n != 0
    case Str(s) => s != ""
    case Arr(_) => true
    case Obj(_) => true
  }

  /** `items[i]` is the first nullish item. */
  predicate FirstNullishAt(items: seq<JsValue>, i: int) {
    0 <= i < |items| && Nullish(items[i]) && forall j :: 0 <= j < i ==> !Nullish(items[j])
  }

  /** The index of the first nullish item, if any. */
  function FirstNullish(items: seq<JsValue>): (r: Option<nat>)
    ensures r.None? <==> forall i :: 0 <= i < |items| ==> !Nullish(items[i])
    ensures r.Some? ==> FirstNullishAt(items, r.value)
  {
    if items == [] then None
    else if Nullish(items[0]) then Some(0)
    else
      match FirstNullish(items[1..])
      case None =>
        assert forall i :: 1 <= i < |items| ==> items[i] == items[1..][i - 1];
        None
      case Some(k) =>
        assert forall j :: 1 <= j < k + 1 ==> items[j] == items[1..][j - 1];
        Some(k + 1)
  }

  /** `a && b` */
  function And(a: JsValue, b: JsValue): JsValue {
    if Truthy(a) then b else a
  }

  /** `a || b` */
  function Or(a: JsValue, b: JsValue): JsValue {
    if Truthy(a) then a else b
  }

  /** `a ?? b` */
  function Coalesce(a: JsValue, b: JsValue): JsValue {
    if Nullish(a) then b else a
  }

  /** A `TypeError` as the engine throws it for `x.key` on a nullish `x`. */
  function ReadError(v: JsValue, key: string): Fault
    requires Nullish(v)
  {
    var msg := "Cannot read properties of " + (if v.Null? then "null" else "undefined")
               + " (reading '" + key + "')";
    Fault("", msg, "TypeError: " + msg)
  }

  /** A `TypeError` for calling something that is not a function. */
  function NotAFunction(callee: string): Fault {
    var msg := callee + " is not a function";
    Fault("", msg, "TypeError: " + msg)
  }

  /** `v?.key`: a named property, `undefined` when `v` is nullish or has no such property. */
  function OptGet(v: JsValue, key: string): JsValue {
    if v.Obj? && key in v.fields then v.fields[key] else Undefined
  }

  /** `v.key`: throws on a nullish `v`. */
  function Get(v: JsValue, key: string): Result<JsValue, Fault> {
    if Nullish(v) then Failure(ReadError(v, key)) else Success(OptGet(v, key))
  }

  /** `v?.[i]` for an integer `i`: array element, string character, or object property. */
  function OptElem(v: JsValue, i: int): JsValue {
    match v
    case Arr(xs) => if 0 <= i < |xs| then xs[i] else Undefined
    case Str(s) => if 0 <= i < |s| then Str([s[i]]) else Undefined
    case Obj(m) => if IntToString(i) in m then m[IntToString(i)] else Undefined
    case _ => Undefined
  }

  /** `v[i]`: throws on a nullish `v`. */
  function Elem(v: JsValue, i: int): Result<JsValue, Fault> {
    if Nullish(v) then Failure(ReadError(v, IntToString(i))) else Success(OptElem(v, i))
  }

  function DigitChar(d: nat): char
    requires d < 10
  {
    "0123456789"[d]
  }

  /** Decimal digits of a natural number, most significant first. */
  function NatToString(n: nat): (r: string)
    ensures r != []
    ensures forall k :: 0 <= k < |r| ==> '0' <= r[k] <= '9'
  {
    if n < 10 then [DigitChar(n)] else NatToString(n / 10) + [DigitChar(n % 10)]
  }

  /** `String(n)` for an integer `n`. */
  function IntToString(n: int): string {
    if n < 0 then "-" + NatToString(-n) else NatToString(n)
  }

  /**
   * `String(v)`, which is also what a template literal `${v}` inserts. Every
   * object is taken to convert through the default `toString`; an object whose
   * own `toString` or `valueOf` key makes the conversion throw is not modelled.
   */
  function ToJsString(v: JsValue): string
    decreases v, 1
  {
    match v
    case Undefined => "undefined"
    case Null => "null"
    case Bool(b) => if b then "true" else "false"
    case Num(n) => IntToString(n)
    case Str(s) => s
    case Arr(_) => JoinItems(v, 0)
    case Obj(_) => "[object Object]"
  }

  /** `Array.prototype.join(",")` from index `i` on, as `String(array)` uses it. */
  function JoinItems(v: JsValue, i: nat): string
    requires v.Arr? && i <= |v.items|
    decreases v, 0, |v.items| - i
  {
    if i == |v.items| then ""
    else
      var x := v.items[i];
      (if i == 0 then "" else ",") + (if Nullish(x) then "" else ToJsString(x)) + JoinItems(v, i + 1)
  }

  /** `v.length` on a non-nullish `v`: a string's or array's length, an object's own `length` property. */
  function LengthProperty(v: JsValue): JsValue {
    match v
    case Str(s) => Num(|s|)
    case Arr(xs) => Num(|xs|)
    case Obj(_) => OptGet(v, "length")
    case _ => Undefined
  }

  /** A JavaScript number as far as comparisons with 0 need it. */
  datatype JsNumber = Finite(n: int) | Infinite(positive: bool) | NaN

  /** The white space and line terminators `Number(s)` trims. */
  predicate IsJsWhitespace(c: char) {
    c == ' ' || c == '\t' || c == '\n' || c == '\r' || c == '\U{B}' || c == '\U{C}'
    || c == '\U{A0}' || c == '\U{1680}' || '\U{2000}' <= c <= '\U{200A}'
    || c == '\U{2028}' || c == '\U{2029}' || c == '\U{202F}' || c == '\U{205F}'
    || c == '\U{3000}' || c == '\U{FEFF}'
  }

  function TrimStart(s: string): string {
    if s != [] && IsJsWhitespace(s[0]) then TrimStart(s[1..]) else s
  }

  function TrimEnd(s: string): string {
    if s != [] && IsJsWhitespace(s[|s| - 1]) then TrimEnd(s[..|s| - 1]) else s
  }

  predicate IsDigits(t: string) {
    t != [] && forall k :: 0 <= k < |t| ==> '0' <= t[k] <= '9'
  }

  /** The value of a string of decimal digits. */
  function DigitsValue(t: string): nat
    requires forall k :: 0 <= k < |t| ==> '0' <= t[k] <= '9'
  {
    if t == [] then 0 else DigitsValue(t[..|t| - 1]) * 10 + (t[|t| - 1] as int - '0' as int)
  }

  /**
   * `Number(s)` for the integer forms: surrounding white space is trimmed, an
   * empty string is 0, an optionally signed run of decimal digits is its value,
   * and a signed or unsigned `Infinity` is infinite. Every other string is NaN.
   */
  function StringToNumber(s: string): JsNumber {
    var t := TrimEnd(TrimStart(s));
    if t == [] then Finite(0)
    else if IsDigits(t) then Finite(DigitsValue(t))
    else if t[0] == '+' && IsDigits(t[1..]) then Finite(DigitsValue(t[1..]))
    else if t[0] == '-' && IsDigits(t[1..]) then Finite(0 - DigitsValue(t[1..]) as int)
    else if t == "Infinity" || t == "+Infinity" then Infinite(true)
    else if t == "-Infinity" then Infinite(false)
    else NaN
  }

  /** `Number(v)`: an array or object is first converted to its string. */
  function ToNumber(v: JsValue): JsNumber {
    match v
    case Undefined => NaN
    case Null => Finite(0)
    case Bool(b) => Finite(if b then 1 else 0)
    case Num(n) => Finite(n)
    case Str(s) => StringToNumber(s)
    case _ => StringToNumber(ToJsString(v))
  }

  /** `v > 0` */
  predicate GreaterThanZero(v: JsValue) {
    match ToNumber(v)
    case Finite(n) => n > 0
    case Infinite(positive) => positive
    case NaN => false
  }

  /** ASCII lower-casing of one character; every other character is left alone. */
  function LowerChar(c: char): char {
    if 'A' <= c <= 'Z' then (c as int + 32) as char else c
  }

  /** ASCII lower-casing of a string, character by character. */
  function LowerStr(s: string): (r: string)
    ensures |r| == |s|
    ensures forall k :: 0 <= k < |s| ==> r[k] == LowerChar(s[k])
  {
    if s == [] then [] else [LowerChar(s[0])] + LowerStr(s[1..])
  }
}
