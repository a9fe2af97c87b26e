/** The JavaScript values the core inspects: it tests them for truthiness,
    asks `typeof v === 'function' | 'string' | 'boolean'`, and copies the own
    properties of objects and arrays. Numbers are integers here. */
module JsValues {
  import opened OrderedMaps
  import Strings

  datatype Value =
    | Undefined
    | Null
    | Bool(b: bool)
    | Num(n: int)
    | Str(s: string)
    | Obj(props: OrderedMap<Value>)
    | Arr(items: seq<Value>)
    | Func(id: nat)   // a function, known only by identity

  /** `!!v` */
  predicate Truthy(v: Value) {
    match v
    case Undefined => false
    case Null => false
    case Bool(b) => b
    case Num(n) => n != 0
    case Str(s) => s != ""
    case _ => true
  }

  /** `v || d` */
  function Or(v: Value, d: Value): (r: Value)
    ensures Truthy(v) ==> r == v
    ensures !Truthy(v) ==> r == d
  {
    if Truthy(v) then v else d
  }

  /** `o[k]` for a plain object given by its own properties. */
  function Prop(props: OrderedMap<Value>, k: string): (r: Value)
    ensures k !in props.values ==> r == Undefined
  {
    if k in props.values then props.values[k] else Undefined
  }

  /** The own enumerable properties that `Object.assign({}, v)` copies from `v`:
      an object's properties, an array's indices, nothing from a primitive or
      a function. (Strings are never passed here.) */
  function OwnProps(v: Value): (r: OrderedMap<Value>)
    requires v.Obj? ==> v.props.Valid()
    ensures r.Valid()
  {
    match v
    case Obj(props) => props
    case Arr(items) => IndexProps(items, |items|)
    case _ => Empty()
  }

  /** `{"0": items[0], ..., "n-1": items[n-1]}` */
  function IndexProps(items: seq<Value>, n: nat): (r: OrderedMap<Value>)
    requires n <= |items|
    ensures r.Valid()
  {
    if n == 0 then Empty()
    else Put(IndexProps(items, n - 1), Strings.NatToString(n - 1), items[n - 1])
  }
}
