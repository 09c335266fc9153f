/**
 * The fragment of JavaScript value semantics that the route guard of the
 * root layout relies on: truthiness, the value-returning `&&` operator,
 * strict equality and reading an array element that may be past the end.
 */
module JsValues {

  /** The JavaScript values the guard can meet. Numbers are not among them. */
  datatype Value =
    | Undefined
    | Null
    | Bool(b: bool)
    | Str(s: string)
    | Object(ref: nat)   // any object; `ref` stands for its identity

  /** ToBoolean: undefined, null, false and the empty string are falsy. */
  function Truthy(v: Value): (truthy: bool)
    ensures !truthy <==> v in {Undefined, Null, Bool(false), Str("")}
  {
    match v
    case Undefined => false
    case Null => false
    case Bool(b) => b
    case Str(s) => s != ""
    case Object(_) => true
  }

  /**
   * `a && b` yields one of its operands, not a boolean: `a` itself when `a`
   * is falsy, `b` otherwise.
   */
  function And(a: Value, b: Value): (r: Value)
    ensures r == a || r == b
    ensures Truthy(r) <==> Truthy(a) && Truthy(b)
    ensures !Truthy(a) ==> r == a
    ensures Truthy(a) ==> r == b
  {
    if Truthy(a) then b else a
  }

  /**
   * `a === b`. Without numbers (and so without NaN) strict equality is
   * equality of type and value, and of identity for objects, which is
   * what the datatype's own equality decides.
   */
  function StrictEquals(a: Value, b: Value): (same: bool)
    ensures a.Str? && b.Str? ==> (same <==> a.s == b.s)
    ensures a.Str? != b.Str? ==> !same
    ensures a.Undefined? ==> (same <==> b.Undefined?)
  {
    a == b
  }

  /** `xs[i]` on an array of strings: `undefined` past the end. */
  function ElementAt(xs: seq<string>, i: nat): (v: Value)
    ensures v == Undefined <==> i >= |xs|
    ensures i < |xs| ==> v == Str(xs[i])
  {
    if i < |xs| then Str(xs[i]) else Undefined
  }
}
