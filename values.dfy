/**
 * Values shared by every part of the model: an Option type, the JSON values that
 * the request handlers and the report page receive, and the few JavaScript rules
 * (truthiness, `?.`, `??`, `Array.isArray`) that the source applies to them.
 */
module Values {

  datatype Option<+T> = None | Some(value: T)

  /** A value produced by JSON.parse (JSON has no `undefined` and no NaN). */
  datatype Json =
    | Null
    | Bool(b: bool)
    | Num(n: real)
    | Str(s: string)
    | Arr(items: seq<Json>)
    | Obj(fields: map<string, Json>)

  /** A JavaScript value read out of parsed JSON: either `undefined` or a JSON value. */
  datatype JsValue = Undefined | Defined(json: Json)

  /** JavaScript truthiness: undefined, null, false, 0 and "" are falsy. */
  predicate Truthy(x: JsValue)
  {
    match x
    case Undefined => false
    case Defined(j) =>
      match j
      case Null => false
      case Bool(b) => b
      case Num(n) => n != 0.0
      case Str(s) => s != ""
      case Arr(_) => true
      case Obj(_) => true
  }

  /** `x == null` in JavaScript: null or undefined, the values `??` and `?.` test for. */
  predicate Nullish(x: JsValue)
  {
    x == Undefined || x == Defined(Null)
  }

  /**
   * `x.key` on a value that is not nullish. Only objects have the keys this model
   * reads; strings, numbers, booleans and arrays give undefined for all of them.
   */
  function Field(x: JsValue, key: string): (r: JsValue)
    requires !Nullish(x)
    ensures r != Undefined ==> x.json.Obj? && key in x.json.fields && r == Defined(x.json.fields[key])
    ensures x.json.Obj? && key in x.json.fields ==> r != Undefined
  {
    match x.json
    case Obj(fields) => if key in fields then Defined(fields[key]) else Undefined
    case _ => Undefined
  }

  /** `x?.key`: undefined when `x` is nullish, `x.key` otherwise. */
  function OptField(x: JsValue, key: string): JsValue
  {
    if Nullish(x) then Undefined else Field(x, key)
  }

  /** `a ?? b` */
  function Coalesce(a: JsValue, b: JsValue): JsValue
  {
    if Nullish(a) then b else a
  }

  /** `Array.isArray(x) ? x.length : 0` */
  function ArrayLength(x: JsValue): nat
  {
    if x.Defined? && x.json.Arr? then |x.json.items| else 0
  }
}
