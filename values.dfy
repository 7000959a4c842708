/**
 * The part of JavaScript's value semantics that the realtime client relies on:
 * truthiness (`if (this.sessionId)`, `if (data.room)`, `if (success)`),
 * property reads on decoded JSON (`data.id`), and the `data + 1` of the
 * liveness-challenge answer.
 */
module Values {

  datatype Option<+T> = None | Some(value: T)

  /**
   * A decoded JSON value, plus `Undefined` (a missing property) and `NaN`
   * (what `undefined + 1` yields). Numbers are integers here.
   */
  datatype Value =
    | Undefined
    | Null
    | Bool(b: bool)
    | Num(n: int)
    | NaN
    | Str(s: string)
    | Obj(fields: map<string, Value>)

  /** JavaScript's ToBoolean. */
  predicate Truthy(v: Value)
  {
    match v
    case Undefined => false
    case Null => false
    case Bool(b) => b
    case Num(n) => n != 0
    case NaN => false
    case Str(s) => s != ""
    case Obj(_) => true
  }

  /**
   * Reading `v[key]`: `None` when the read throws a TypeError (on
   * `undefined` or `null`); a missing property reads as `Undefined`.
   */
  function Member(v: Value, key: string): (r: Option<Value>)
    ensures r.None? <==> v == Undefined || v == Null
    ensures v.Obj? && key in v.fields ==> r == Some(v.fields[key])
    ensures v.Obj? && key !in v.fields ==> r == Some(Undefined)
    ensures !v.Obj? && r.Some? ==> r.value == Undefined
  {
    match v
    case Undefined => None
    case Null => None
    case Obj(fields) => Some(if key in fields then fields[key] else Undefined)
    case _ => Some(Undefined)
  }

  /** JavaScript's `v + 1`: numeric addition, or concatenation when `v` converts to a string. */
  function PlusOne(v: Value): (r: Value)
    ensures v.Num? ==> r == Num(v.n + 1)
    ensures v.Str? ==> r == Str(v.s + "1")
    ensures v.Obj? ==> r.Str?
    ensures v == Undefined || v == NaN ==> r == NaN
  {
    match v
    case Undefined => NaN
    case Null => Num(1)
    case Bool(b) => Num(if b then 2 else 1)
    case Num(n) => Num(n + 1)
    case NaN => NaN
    case Str(s) => Str(s + "1")
    case Obj(_) => Str("[object Object]1")
  }
}
