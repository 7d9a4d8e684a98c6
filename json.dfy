/**
 * JavaScript values as the relay handlers see them after `JSON.parse`, and the
 * three coercions the handlers apply to them: truthiness (`if (data.to)`,
 * `username || "unknown"`), conversion to a property key (`clients[data.to]`,
 * `delete users[username]`) and loose equality with a string literal
 * (`data.type == 'join'`).
 */
module Json {

  /**
   * A JavaScript value. `Undefined` is what a missing property reads as; it
   * never occurs inside a parsed frame. Numbers are restricted to integers.
   */
  datatype Value =
    | Undefined
    | Null
    | Bool(b: bool)
    | Num(n: int)
    | Str(s: string)
    | Arr(items: seq<Value>)
    | Obj(fields: map<string, Value>)

  /** A JSON object: property names to values. */
  type Object = map<string, Value>

  /** Property read `o.k`: a missing property reads as undefined. */
  function Get(o: Object, k: string): Value {
    if k in o then o[k] else Undefined
  }

  /** JavaScript truthiness (ToBoolean). */
  predicate Truthy(v: Value) {
    match v
    case Undefined => false
    case Null => false
    case Bool(b) => b
    case Num(n) => n != 0
    case Str(s) => s != ""
    case Arr(_) => true
    case Obj(_) => true
  }

  /** The value of a decimal digit character. */
  function DigitValue(c: char): int {
    c as int - '0' as int
  }

  /** The number a string of decimal digits spells, most significant first. */
  function DecimalValue(t: string): int {
    if t == [] then 0 else DecimalValue(t[..|t| - 1]) * 10 + DigitValue(t[|t| - 1])
  }

  /** The decimal digit for 0..9. */
  function Digit(d: nat): (c: char)
    requires d < 10
    ensures '0' <= c <= '9' && DigitValue(c) == d
  {
    ('0' as int + d) as char
  }

  /** Decimal text of a natural number: digits without a leading zero that spell `n`. */
  function NatText(n: nat): (t: string)
    ensures |t| > 0
    ensures forall i :: 0 <= i < |t| ==> '0' <= t[i] <= '9'
    ensures t[0] == '0' ==> n == 0
    ensures DecimalValue(t) == n
  {
    if n < 10 then [Digit(n)]
    else
      var high := NatText(n / 10);
      assert (high + [Digit(n % 10)])[..|high|] == high;
      high + [Digit(n % 10)]
  }

  /** `String(n)` for an integer. */
  function IntText(n: int): string {
    if n < 0 then "-" + NatText(-n) else NatText(n)
  }

  /**
   * `String(v)` (ToString), used when a value becomes a property key. An array
   * joins its elements' text with commas, an element that is null or
   * undefined contributing the empty string.
   */
  function Text(v: Value): string
    decreases v, if v.Arr? then |v.items| + 1 else 0
  {
    match v
    case Undefined => "undefined"
    case Null => "null"
    case Bool(b) => if b then "true" else "false"
    case Num(n) => IntText(n)
    case Str(s) => s
    case Arr(items) => JoinFrom(v, 0)
    case Obj(_) => "[object Object]"
  }

  /** `items.slice(i).join(",")` for the array value `a`. */
  function JoinFrom(a: Value, i: nat): string
    requires a.Arr? && i <= |a.items|
    decreases a, |a.items| - i
  {
    if i == |a.items| then ""
    else
      var x := a.items[i];
      var t := if x.Null? || x.Undefined? then "" else Text(x);
      if i + 1 == |a.items| then t else t + "," + JoinFrom(a, i + 1)
  }

  /** The property key a value is converted to when used as `obj[v]`. */
  function PropertyKey(v: Value): string {
    Text(v)
  }

  /** The string literals the relay handlers compare frame fields with. */
  const Literals: set<string> := {"username", "message", "join", "broadcaster"}

  /**
   * Loose equality `v == w` with one of the literals, all of them runs of
   * letters. Booleans, numbers, null and undefined never equal such a
   * literal: a boolean or number compares by ToNumber, and the literal
   * converts to NaN. An array or object is first converted by ToPrimitive,
   * which for a parsed value without an own `toString` property is its
   * `String` text.
   */
  predicate LooseEqualsWord(v: Value, w: string)
    requires w in Literals
  {
    match v
    case Str(s) => s == w
    case Arr(_) => Text(v) == w
    case Obj(_) => Text(v) == w
    case _ => false
  }
}
