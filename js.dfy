/**
 * The small slice of JavaScript value semantics the client state layer relies on:
 * property reads that yield `undefined`, strict equality, truthiness for `||`,
 * and the shallow object spread `{...a, ...b}`.
 */
module Js {

  /** `null`-or-value, used for the stores' nullable fields. */
  datatype Option<+T> = None | Some(value: T)

  /**
   * A JavaScript value as the stores see it. Primitives are compared by value;
   * `Ref` stands for any object or array, compared by identity, so `===` on
   * `Value` is Dafny's `==`. Numbers are integers (no NaN, no fractions).
   */
  datatype Value = Undefined | Null | Bool(b: bool) | Num(n: int) | Str(s: string) | Ref(address: nat)

  /** A plain object: its own enumerable properties (insertion order is not kept). */
  type Obj = map<string, Value>

  /** The property read `o.k`: a property the object lacks reads as `undefined`. */
  function Get(o: Obj, k: string): Value
  {
    if k in o then o[k] else Undefined
  }

  /** Truthiness, as `||`, `if` and `!` test it. */
  predicate Truthy(v: Value)
  {
    match v
    case Undefined => false
    case Null => false
    case Bool(b) => b
    case Num(n) => n != 0
    case Str(s) => s != ""
    case Ref(_) => true
  }

  /** `a || b`: the left operand when it is truthy, else the right one. */
  function Or(a: Value, b: Value): (r: Value)
    ensures Truthy(a) ==> r == a
    ensures !Truthy(a) ==> r == b
  {
    if Truthy(a) then a else b
  }

  /**
   * The shallow spread `{...a, ...b}`: every own property of both objects,
   * with `b`'s value wherever both have the key.
   */
  function Spread(a: Obj, b: Obj): (r: Obj)
    ensures r.Keys == a.Keys + b.Keys
    ensures forall k :: k in b ==> r[k] == b[k]
    ensures forall k :: k in a && k !in b ==> r[k] == a[k]
  {
    a + b
  }

  /** The rest pattern `const { k, ...rest } = o`: `rest` is `o` without `k`. */
  function Rest(o: Obj, k: string): (r: Obj)
    ensures k !in r
    ensures r.Keys == o.Keys - {k}
    ensures forall j :: j in r ==> r[j] == o[j]
  {
    o - {k}
  }
}
