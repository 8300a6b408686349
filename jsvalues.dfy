/** JavaScript values as far as the module's setup routine observes them:
    `typeof`, truthiness, strict equality with a string, and property lookup. */
module JsValues {

  /** A JavaScript value. Objects list their own enumerable properties in
      `Object.keys` order; regular expressions and functions are opaque. */
  datatype JsValue =
    | Undefined
    | Null
    | Bool(b: bool)
    | Num(n: real)
    | NaN
    | Str(s: string)
    | Obj(props: seq<Prop>)
    | Arr(elems: seq<JsValue>)
    | Regex(source: string)
    | Func(name: string)

  /** One own property of an object. */
  datatype Prop = Prop(key: string, value: JsValue)

  /** The `typeof` operator. Note that `typeof null` is "object". */
  function Typeof(v: JsValue): (t: string)
    ensures t in {"undefined", "object", "boolean", "number", "string", "function"}
    ensures t == "object" <==> v.Null? || v.Obj? || v.Arr? || v.Regex?
  {
    match v
    case Undefined => "undefined"
    case Null => "object"
    case Bool(_) => "boolean"
    case Num(_) => "number"
    case NaN => "number"
    case Str(_) => "string"
    case Obj(_) => "object"
    case Arr(_) => "object"
    case Regex(_) => "object"
    case Func(_) => "function"
  }

  /** JavaScript truthiness: `undefined`, `null`, `false`, `0`, `NaN` and `''`
      are falsy, every other value (every object included) is truthy. */
  predicate Truthy(v: JsValue) {
    match v
    case Undefined => false
    case Null => false
    case Bool(b) => b
    case Num(n) => n != 0.0
    case NaN => false
    case Str(s) => s != ""
    case _ => true
  }

  /** The keys of a property list, in order. */
  function Keys(props: seq<Prop>): (ks: seq<string>)
    ensures |ks| == |props|
    ensures forall i :: 0 <= i < |props| ==> ks[i] == props[i].key
  {
    if props == [] then [] else [props[0].key] + Keys(props[1..])
  }

  /** `obj[key]` on a plain object: the value of the first property named
      `key`, or `undefined` when there is none. */
  function Get(props: seq<Prop>, key: string): (v: JsValue)
    ensures (forall i :: 0 <= i < |props| ==> props[i].key != key) ==> v == Undefined
    ensures forall i :: 0 <= i < |props| && props[i].key == key && FirstWithKey(props, key, i) ==>
      v == props[i].value
  {
    if props == [] then Undefined
    else if props[0].key == key then props[0].value
    else Get(props[1..], key)
  }

  /** Property `i` is the first one named `key`. */
  predicate FirstWithKey(props: seq<Prop>, key: string, i: nat)
    requires i <= |props|
  {
    forall j :: 0 <= j < i ==> props[j].key != key
  }

  /** `v.key` on a value whose `typeof` is "object" and that is not `null`.
      Arrays and regular expressions carry none of the named options the
      module reads, so those read as `undefined`. */
  function Member(v: JsValue, key: string): JsValue
    requires v.Obj? || v.Arr? || v.Regex?
  {
    if v.Obj? then Get(v.props, key) else Undefined
  }

  /** `a || b`: `a` when it is truthy, `b` otherwise. */
  function Or(a: JsValue, b: JsValue): JsValue {
    if Truthy(a) then a else b
  }

  /** `a === undefined ? b : a`. */
  function IfUndefined(a: JsValue, b: JsValue): JsValue {
    if a == Undefined then b else a
  }
}
