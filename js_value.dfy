/** The JSON values that reach the webhook inside a fulfillment request's parameters, together
    with the pieces of JavaScript semantics the booking handler relies on: `typeof`, truthiness,
    the `||` operator, property and index reads, and the string conversion a template literal
    performs on each `${...}` it interpolates. */
module JsValues {
  import opened Wrappers

  /** A value built by JSON.parse. `Undefined` stands for a property that is not there.
      Numbers are modelled as integers. */
  datatype JsValue =
    | Undefined
    | Null
    | Bool(b: bool)
    | Num(n: int)
    | Str(s: string)
    | Obj(fields: map<string, JsValue>)
    | Arr(elems: seq<JsValue>)

  /** The TypeErrors the handler can raise */
  datatype JsError =
    | ReadOfNull(key: string)  // reading property `key` of null
    | NoPrimitiveValue         // converting to a string an object whose own "toString" key is not callable

  /** `typeof v === 'object'`, which holds of null as well as of objects and arrays */
  predicate IsObjectType(v: JsValue)
  {
    v.Null? || v.Obj? || v.Arr?
  }

  /** JavaScript truthiness: undefined, null, false, 0 and "" are falsy; every object and array is truthy */
  predicate Truthy(v: JsValue)
  {
    match v
    case Undefined => false
    case Null => false
    case Bool(b) => b
    case Num(n) => n != 0
    case Str(s) => s != ""
    case Obj(_) => true
    case Arr(_) => true
  }

  /** `v.key` for a `v` that is neither null nor undefined. Only an object's own keys are seen:
      none of the keys the handler reads exists on strings, numbers, booleans, arrays or the
      prototypes behind them. */
  function Get(v: JsValue, key: string): JsValue
  {
    if v.Obj? && key in v.fields then v.fields[key] else Undefined
  }

  /** `v[0]` for an array `v` */
  function First(v: JsValue): JsValue
    requires v.Arr?
  {
    if |v.elems| > 0 then v.elems[0] else Undefined
  }

  /** `operands[0] || operands[1] || ... || last`: the first truthy operand, or `last` itself
      (truthy or not) when every operand is falsy */
  function OrChain(operands: seq<JsValue>, last: JsValue): (r: JsValue)
    ensures (forall i | 0 <= i < |operands| :: !Truthy(operands[i])) ==> r == last
    ensures forall k | 0 <= k < |operands| && Truthy(operands[k]) && (forall j | 0 <= j < k :: !Truthy(operands[j])) ::
              r == operands[k]
  {
    if operands == [] then last
    else if Truthy(operands[0]) then operands[0]
    else OrChain(operands[1..], last)
  }

  /** The character of a decimal digit */
  function DigitChar(d: nat): (c: char)
    requires d < 10
    ensures '0' <= c <= '9'
  {
    ('0' as int + d) as char
  }

  /** The value of a decimal digit character */
  function DigitValue(c: char): nat
    requires '0' <= c <= '9'
  {
    c as int - '0' as int
  }

  /** A string of decimal digits */
  predicate IsDigits(s: string)
  {
    forall i | 0 <= i < |s| :: '0' <= s[i] <= '9'
  }

  /** The decimal numeral of `n`, as Number.prototype.toString writes a non-negative integer up to 2^53 */
  function Decimal(n: nat): (r: string)
    ensures |r| > 0
    ensures IsDigits(r)
    ensures r[0] == '0' ==> n == 0
  {
    if n < 10 then [DigitChar(n)] else Decimal(n / 10) + [DigitChar(n % 10)]
  }

  /** The number a string of decimal digits denotes */
  function DecimalValue(s: string): nat
    requires IsDigits(s)
  {
    if s == [] then 0 else DecimalValue(s[..|s| - 1]) * 10 + DigitValue(s[|s| - 1])
  }

  /** Reading back a numeral gives the number it was written from */
  lemma {:induction false} DecimalRoundTrip(n: nat)
    ensures DecimalValue(Decimal(n)) == n
  {
    var r := Decimal(n);
    if n >= 10 {
      DecimalRoundTrip(n / 10);
      assert r[..|r| - 1] == Decimal(n / 10);
    }
  }

  /** Which values a template literal can interpolate: everything except an object with an own
      "toString" key, or an array holding such an object at any depth of arrays */
  predicate Convertible(v: JsValue)
    decreases v
  {
    match v
    case Obj(fields) => "toString" !in fields
    case Arr(elems) => forall i | 0 <= i < |elems| :: Convertible(elems[i])
    case _ => true
  }

  /** `String(v)`, the conversion a template literal applies to `${v}`; None when it throws.
      A JSON object converts to "[object Object]" unless it has an own key "toString": that
      key's value is never callable, and neither is an own "valueOf", while the inherited
      valueOf returns the object itself, so ToPrimitive fails with a TypeError. An array
      converts by joining its elements with ",", null and undefined elements giving "".
      The conversion fails exactly on the values that are not convertible. */
  function ToJsString(v: JsValue): (r: Option<string>)
    ensures r.Some? <==> Convertible(v)
    ensures v.Obj? && "toString" !in v.fields ==> r == Some("[object Object]")
    decreases v, 1
  {
    match v
    case Undefined => Some("undefined")
    case Null => Some("null")
    case Bool(b) => Some(if b then "true" else "false")
    case Num(n) => Some(if n < 0 then "-" + Decimal(-n) else Decimal(n))
    case Str(s) => Some(s)
    case Obj(fields) => if "toString" in fields then None else Some("[object Object]")
    case Arr(elems) => JoinElements(elems)
  }

  /** Array.prototype.join(",") applied to `elems`; it fails exactly when some element does not
      convert */
  function JoinElements(elems: seq<JsValue>): (r: Option<string>)
    ensures r.Some? <==> forall i | 0 <= i < |elems| :: Convertible(elems[i])
    decreases elems, 0
  {
    if elems == [] then Some("")
    else
      var head := if elems[0].Null? || elems[0].Undefined? then Some("") else ToJsString(elems[0]);
      assert forall i | 1 <= i < |elems| :: elems[i] == elems[1..][i - 1];
      if |elems| == 1 then head
      else match (head, JoinElements(elems[1..]))
        case (Some(h), Some(t)) => Some(h + "," + t)
        case _ => None
  }
}
