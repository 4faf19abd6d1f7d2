/**
  The JavaScript values that the notification relay and the request validator
  look at, with the two language rules they depend on: truthiness (what `if (x)`
  and `!x` test) and the conversion of a value to a property key (what
  `obj[x]` looks up).
 */
module Wrappers {
  datatype Option<+T> = None | Some(value: T)
}

module JsValues {
  import opened Wrappers

  /** Identity of a handler function supplied by the application. */
  type HandlerId = nat

  /**
    A JavaScript value. Numbers are modelled as integers; objects and
    functions are known only by their identity.
   */
  datatype JsValue =
    | Undefined
    | Null
    | Bool(b: bool)
    | Num(n: int)
    | Str(s: string)
    | Obj(ref: nat)
    | Fn(id: HandlerId)

  /** JavaScript truthiness: `false`, `0`, `""`, `null` and `undefined` are falsy. */
  predicate Truthy(v: JsValue) {
    match v
    case Undefined => false
    case Null => false
    case Bool(b) => b
    case Num(n) => n != 0
    case Str(s) => s != ""
    case Obj(_) => true
    case Fn(_) => true
  }

  /** `m.get(k)` on a JavaScript `Map`: `undefined` for a missing key. */
  function Get<K>(m: map<K, JsValue>, k: K): JsValue {
    if k in m then m[k] else Undefined
  }

  const Digits: string := "0123456789"

  /**
    The decimal text of a natural number. `String(n)` writes this for integers
    below 10^21 that a double holds exactly; larger ones are not modelled.
   */
  function NatKey(n: nat): (r: string)
    ensures |r| > 0
    ensures forall c :: c in r ==> c in Digits
  {
    if n < 10 then [Digits[n]] else NatKey(n / 10) + [Digits[n % 10]]
  }

  /** The decimal text of an integer, with a leading `-` when negative. */
  function NumberKey(n: int): (r: string)
    ensures |r| > 0 && r[0] in "-" + Digits
  {
    if n < 0 then "-" + NatKey(-n)
    else
      var k := NatKey(n);
      assert k[0] in k;
      k
  }

  /**
    The property key `obj[v]` uses for a value `v` (ToPropertyKey). A function's
    key is its source text, which the model does not carry: `None`.
   */
  function PropertyKey(v: JsValue): (r: Option<string>)
    ensures r.None? <==> v.Fn?
    ensures v.Str? ==> r == Some(v.s)
    ensures v.Num? ==> r.Some? && |r.value| > 0 && r.value[0] in "-" + Digits
  {
    match v
    case Undefined => Some("undefined")
    case Null => Some("null")
    case Bool(b) => Some(if b then "true" else "false")
    case Num(n) => Some(NumberKey(n))
    case Str(s) => Some(s)
    case Obj(_) => Some("[object Object]")
    case Fn(_) => None
  }
}
