/**
 * The JavaScript values that flow through the app: parameter values, link and
 * asset objects, route entries, and configuration blobs. Only the parts of JS
 * semantics the app relies on are modelled: truthiness (for `||`, `&&` and
 * `if`), `typeof`, optional-chained property reads (`?.`) and nullish
 * coalescing (`??`).
 */
module JsValue {

  /** A JSON-like JS value. Numbers are mathematical reals (no NaN). */
  datatype Value =
    | Str(s: string)
    | Num(n: real)
    | Bool(b: bool)
    | Null
    | Undef
    | Obj(fields: map<string, Value>)
    | Arr(items: seq<Value>)

  /** JS truthiness: falsy values are '', 0, false, null and undefined. */
  predicate Truthy(v: Value) {
    match v
    case Str(s) => s != ""
    case Num(n) => n != 0.0
    case Bool(b) => b
    case Null => false
    case Undef => false
    case Obj(_) => true
    case Arr(_) => true
  }

  /** The result of JS `typeof`; note that `typeof null` and arrays give "object". */
  function TypeOf(v: Value): (r: string)
    ensures r == "object" <==> v.Null? || v.Obj? || v.Arr?
    ensures r == "string" <==> v.Str?
  {
    match v
    case Str(_) => "string"
    case Num(_) => "number"
    case Bool(_) => "boolean"
    case Null => "object"
    case Undef => "undefined"
    case Obj(_) => "object"
    case Arr(_) => "object"
  }

  /**
   * `v?.key`: the property of an object, or undefined when the property is
   * absent or `v` is not an object (built-in properties of strings and arrays
   * are not modelled).
   */
  function Get(v: Value, key: string): (r: Value)
    ensures r != Undef ==> v.Obj? && key in v.fields && r == v.fields[key]
    ensures v.Obj? && key in v.fields ==> r == v.fields[key]
  {
    if v.Obj? && key in v.fields then v.fields[key] else Undef
  }

  /** `a || b`: the left operand when it is truthy, otherwise the right one. */
  function Or(a: Value, b: Value): (r: Value)
    ensures Truthy(a) ==> r == a
    ensures !Truthy(a) ==> r == b
    ensures Truthy(r) <==> Truthy(a) || Truthy(b)
  {
    if Truthy(a) then a else b
  }

  /** null or undefined: the values `??` and `?.` treat as missing. */
  predicate Nullish(v: Value) {
    v.Null? || v.Undef?
  }

  /** `a ?? b`: the left operand unless it is null or undefined. */
  function Coalesce(a: Value, b: Value): (r: Value)
    ensures Nullish(a) ==> r == b
    ensures !Nullish(a) ==> r == a
  {
    if Nullish(a) then b else a
  }
}
