/** Loosely-typed JavaScript values as they arrive from `JSON.parse` (axios and
    `fetch().json()`), together with the three operations the incident screens
    apply to them: truthiness (`!x`, `x || d`), property access (`o.k`, `'k' in o`,
    `o.k = v`) and the comparison `d <= r` on numbers. */
module JsValues {
  import opened Wrappers

  /** A JavaScript number: a finite value, NaN, or one of the infinities
      (`parseFloat("abc")` is NaN; `parseFloat("Infinity")` is infinite). */
  datatype Number = Finite(value: real) | NaN | PositiveInfinity | NegativeInfinity

  /** A JavaScript value. Arrays carry their elements and any named properties
      assigned to them (an array is an object, so `arr.latitude = null` works). */
  datatype JsValue =
    | Undefined
    | Null
    | Bool(b: bool)
    | Num(n: Number)
    | Str(s: string)
    | Arr(elems: seq<JsValue>, arrProps: map<string, JsValue>)
    | Obj(props: map<string, JsValue>)

  /** ToBoolean(v) is false: undefined, null, false, 0, NaN and "". */
  predicate Falsy(v: JsValue) {
    match v
    case Undefined => true
    case Null => true
    case Bool(b) => !b
    case Num(n) => n == Finite(0.0) || n == NaN
    case Str(s) => s == ""
    case _ => false
  }

  predicate Truthy(v: JsValue) {
    !Falsy(v)
  }

  /** `null` or `undefined`: what `=== null || === undefined` tests. */
  predicate IsNullish(v: JsValue) {
    v.Undefined? || v.Null?
  }

  /** Values with properties of their own: objects and arrays. The `in` operator
      throws a TypeError on every other value, and strict-mode code throws when it
      assigns a property to one. */
  predicate IsObject(v: JsValue) {
    v.Arr? || v.Obj?
  }

  /** The named own properties of an object or array. */
  function Props(v: JsValue): map<string, JsValue>
    requires IsObject(v)
  {
    if v.Arr? then v.arrProps else v.props
  }

  /** `'key' in v` for a non-index key. */
  predicate HasProperty(v: JsValue, key: string)
    requires IsObject(v)
  {
    key in Props(v)
  }

  /** `v.key` for a named (non-index, non-`length`) key: the own property of an
      object, and `undefined` for a missing key or a primitive value. */
  function Get(v: JsValue, key: string): JsValue {
    if IsObject(v) && key in Props(v) then Props(v)[key] else Undefined
  }

  /** `v.key = x` on an object or array. */
  function Set(v: JsValue, key: string, x: JsValue): (r: JsValue)
    requires IsObject(v)
    ensures IsObject(r) && HasProperty(r, key) && Get(r, key) == x
    ensures forall k | k != key :: Get(r, k) == Get(v, k)
    ensures forall k | k != key :: HasProperty(r, k) <==> HasProperty(v, k)
  {
    match v
    case Arr(elems, p) => Arr(elems, p[key := x])
    case Obj(p) => Obj(p[key := x])
  }

  /** Assigning a property its present value changes nothing. */
  lemma SetSameValue(v: JsValue, key: string)
    requires IsObject(v) && HasProperty(v, key)
    ensures Set(v, key, Get(v, key)) == v
  {
  }

  /** `x || fallback`. */
  function OrElse(x: JsValue, fallback: JsValue): (r: JsValue)
    ensures Truthy(x) ==> r == x
    ensures Falsy(x) ==> r == fallback
  {
    if Truthy(x) then x else fallback
  }

  /** `d <= r` for a number `d` and a finite `r`: false for NaN and `+Infinity`,
      true for `-Infinity`. */
  predicate AtMost(d: Number, r: real) {
    match d
    case Finite(x) => x <= r
    case NegativeInfinity => true
    case _ => false
  }

  /** A larger bound admits every number a smaller one admits. */
  lemma AtMostMonotone(d: Number, r1: real, r2: real)
    requires r1 <= r2 && AtMost(d, r1)
    ensures AtMost(d, r2)
  {
  }

  /** `a === b` on the primitive values the screens compare (ids, statuses). NaN
      differs from itself; objects and arrays are compared structurally, which
      stands in for JavaScript's reference identity. */
  predicate StrictEquals(a: JsValue, b: JsValue) {
    match (a, b)
    case (Num(x), Num(y)) => x == y && x != NaN
    case _ => a == b
  }
}
