/**
 * The JavaScript values the client handles: parsed JSON bodies, the login
 * response, the token it keeps, and the error messages it throws. Only the
 * pieces of JavaScript semantics the client uses are modelled: truthiness,
 * `a || b`, property reads, and String() coercion.
 */
module JsValue {
  import opened Wrappers
  import Decimal

  /** A JavaScript value. Numbers are integral in this model. */
  datatype Value =
    | Undefined
    | Null
    | Bool(b: bool)
    | Num(n: int)
    | Str(s: string)
    | Arr(items: seq<Value>)
    | Obj(fields: map<string, Value>)

  /** JavaScript's ToBoolean: undefined, null, false, 0 and "" are falsy. */
  predicate Truthy(v: Value) {
    match v
    case Undefined => false
    case Null => false
    case Bool(b) => b
    case Num(n) => n != 0
    case Str(s) => s != ""
    case Arr(_) => true
    case Obj(_) => true
  }

  /** `a || b`: the left operand when it is truthy, the right one otherwise. */
  function Or(a: Value, b: Value): Value {
    if Truthy(a) then a else b
  }

  /** `a || b` is truthy exactly when one of its operands is, and it never invents a value. */
  lemma OrTruthy(a: Value, b: Value)
    ensures Truthy(Or(a, b)) <==> Truthy(a) || Truthy(b)
    ensures Or(a, b) == a || Or(a, b) == b
  {
  }

  /**
   * `v[key]` for the property names the client reads. Reading any property of
   * undefined or null throws a TypeError, which is None here; an absent property
   * reads as undefined. Primitives and arrays carry no own properties besides
   * `length` (array indices and prototype members are not modelled); a
   * string's `length` here counts its characters, not UTF-16 code units.
   */
  function Get(v: Value, key: string): Option<Value> {
    match v
    case Undefined => None
    case Null => None
    case Obj(fields) => Some(if key in fields then fields[key] else Undefined)
    case Str(s) => Some(if key == "length" then Num(|s|) else Undefined)
    case Arr(items) => Some(if key == "length" then Num(|items|) else Undefined)
    case _ => Some(Undefined)
  }

  /** `v?.key`: undefined instead of a TypeError when `v` is null or undefined. */
  function GetOptional(v: Value, key: string): Value {
    Get(v, key).GetOr(Undefined)
  }

  /**
   * String(v), which is what template literals and localStorage.setItem apply
   * to a value. Arrays join their elements with commas, writing undefined and
   * null as empty; every plain object prints as "[object Object]".
   */
  function ToStr(v: Value): (r: string)
    decreases v, 1
    ensures v.Num? ==> Decimal.ParseInt(r) == Some(v.n)
    ensures r == "" ==> v == Str("") || v.Arr?
  {
    match v
    case Undefined => "undefined"
    case Null => "null"
    case Bool(b) => if b then "true" else "false"
    case Num(n) => Decimal.IntToStringRoundTrip(n); Decimal.IntToString(n)
    case Str(s) => s
    case Arr(items) => JoinElements(v, items, 0)
    case Obj(_) => "[object Object]"
  }

  function JoinElements(whole: Value, items: seq<Value>, from: nat): string
    requires whole == Arr(items) && from <= |items|
    decreases whole, 0, |items| - from
  {
    if from == |items| then ""
    else
      var first := if items[from] == Undefined || items[from] == Null then "" else ToStr(items[from]);
      if from + 1 == |items| then first else first + "," + JoinElements(whole, items, from + 1)
  }
}
