/** The JavaScript values that reach the core as untyped JSON (`any` in the
    source): request bodies, the GraphQL `errors` field, GraphQL variables and
    the JSON replies of the two API routes. Only the operations the core uses
    on them are modelled: truthiness, nullishness, property reads and object
    spread. */
module Js {

  /** A JSON value, plus `undefined` and `NaN`. Arrays and objects are kept
      apart only so that a body can be built; both are always truthy. */
  datatype Value =
    | Undefined
    | Null
    | Bool(b: bool)
    | Num(n: real)
    | NaN
    | Str(s: string)
    | Arr(items: seq<Value>)
    | Obj(fields: map<string, Value>)

  /** JavaScript's `!!v`. An empty array or object is truthy; `0`, `NaN` and
      the empty string are not. */
  predicate Truthy(v: Value) {
    match v
    case Undefined => false
    case Null => false
    case Bool(b) => b
    case Num(n) => n != 0.0
    case NaN => false
    case Str(s) => s != ""
    case Arr(_) => true
    case Obj(_) => true
  }

  /** `v == null` in JavaScript: the values on which a property read throws
      a TypeError and `?.` short-circuits. */
  predicate Nullish(v: Value) {
    v.Undefined? || v.Null?
  }

  /** `v.key` on a value that is not nullish. Only own fields of objects are
      seen; a read from any other value gives `undefined`. */
  function Prop(v: Value, key: string): (r: Value)
    requires !Nullish(v)
    ensures v.Obj? && key in v.fields ==> r == v.fields[key]
    ensures !(v.Obj? && key in v.fields) ==> r == Undefined
  {
    if v.Obj? && key in v.fields then v.fields[key] else Undefined
  }

  /** `v?.key`: `undefined` when `v` is nullish, otherwise `v.key`. */
  function OptProp(v: Value, key: string): (r: Value)
    ensures Nullish(v) ==> r == Undefined
    ensures !Nullish(v) ==> r == Prop(v, key)
  {
    if Nullish(v) then Undefined else Prop(v, key)
  }

  /** `{...base, ...v}` for an object `v`: the fields of `v` win. */
  function Spread(base: map<string, Value>, v: Value): (r: map<string, Value>)
    ensures v.Obj? ==> r.Keys == base.Keys + v.fields.Keys
    ensures v.Obj? ==> forall k :: k in v.fields ==> r[k] == v.fields[k]
    ensures forall k :: k in base && !(v.Obj? && k in v.fields) ==> k in r && r[k] == base[k]
  {
    if v.Obj? then base + v.fields else base
  }
}
