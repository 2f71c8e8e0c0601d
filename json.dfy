/**
 * JSON values as the handlers see them after `JSON.parse` or Express's body parser, with the
 * three JavaScript operations the core applies to them: truthiness (`!x`, `x || y`),
 * strict comparison with `undefined`, and property reads (which throw a TypeError on
 * `null` and `undefined`).
 */
module Json {
  import opened Wrappers

  /** A JavaScript number as produced by `parseFloat`: a finite value or NaN. */
  datatype JsNumber = Finite(value: real) | NaN

  datatype JsValue =
    | Undefined
    | Null
    | Bool(b: bool)
    | Num(n: real)
    | Str(s: string)
    | Arr(items: seq<JsValue>)
    | Obj(fields: map<string, JsValue>)

  /** JavaScript truthiness of a JSON value (JSON numbers are never NaN). */
  predicate Truthy(v: JsValue) {
    match v
    case Undefined => false
    case Null => false
    case Bool(b) => b
    case Num(n) => n != 0.0
    case Str(s) => s != ""
    case Arr(_) => true
    case Obj(_) => true
  }

  /** `a || b`: the first operand when it is truthy, otherwise the second. */
  function Or(a: JsValue, b: JsValue): (r: JsValue)
    ensures Truthy(a) ==> r == a
    ensures !Truthy(a) ==> r == b
    ensures Truthy(r) <==> Truthy(a) || Truthy(b)
  {
    if Truthy(a) then a else b
  }

  /**
   * The TypeErrors the core can raise: a property read on `null` or `undefined`, and a call
   * of a method the value does not have (`toUpperCase` on a number, `map` on an object).
   */
  datatype TypeError = CannotReadProperty(name: string) | NotAFunction(name: string)

  /** An object's own field `name`, `undefined` when it has none. */
  function Field(fields: map<string, JsValue>, name: string): JsValue {
    if name in fields then fields[name] else Undefined
  }

  /**
   * `v[name]` for the property names the core reads (`DE`, `VN`, `deutsch`,
   * `vietnamesisch`, `length`): an own field of an object, the `length` of an array or a
   * string, and `undefined` for anything else; none of these names is inherited from a
   * prototype.
   */
  function Property(v: JsValue, name: string): (r: Result<JsValue, TypeError>)
    ensures r.Err? <==> v.Undefined? || v.Null?
    ensures v.Obj? ==> r == Ok(if name in v.fields then v.fields[name] else Undefined)
    ensures v.Arr? ==> r == Ok(if name == "length" then Num(|v.items| as real) else Undefined)
    ensures v.Str? ==> r == Ok(if name == "length" then Num(|v.s| as real) else Undefined)
    ensures v.Bool? || v.Num? ==> r == Ok(Undefined)
  {
    match v
    case Undefined => Err(CannotReadProperty(name))
    case Null => Err(CannotReadProperty(name))
    case Obj(fields) => Ok(if name in fields then fields[name] else Undefined)
    case Arr(items) => Ok(if name == "length" then Num(|items| as real) else Undefined)
    case Str(s) => Ok(if name == "length" then Num(|s| as real) else Undefined)
    case _ => Ok(Undefined)
  }
}
