/**
 * The slice of JavaScript's value model that the proxy touches: the values that
 * travel in a call's arguments and in a decoded JSON response, error objects,
 * truthiness (what `if (x)`, `!x` and `x || y` test) and reading a property.
 */
module JsValues {

  datatype Option<+T> = None | Some(value: T)

  /** An `Error` object, identified by its message. */
  datatype ErrorValue = ErrorValue(message: string)

  /**
   * A JavaScript value. Numbers are integers (a JSON body cannot carry NaN);
   * a function is known only by an identity.
   */
  datatype Value =
    | Undefined
    | Null
    | Bool(b: bool)
    | Number(n: int)
    | Str(s: string)
    | Array(elems: seq<Value>)
    | Object(fields: map<string, Value>)
    | Function(id: nat)
    | Error(error: ErrorValue)

  /** JavaScript truthiness: the falsy values are undefined, null, false, 0 and "". */
  predicate Truthy(v: Value)
  {
    match v
    case Undefined => false
    case Null => false
    case Bool(b) => b
    case Number(n) => n != 0
    case Str(s) => s != ""
    case _ => true
  }

  /** Reading a property of `null` or `undefined` throws a TypeError. */
  predicate Nullish(v: Value)
  {
    v.Undefined? || v.Null?
  }

  /**
   * `v.key` for a value that is not nullish: an object's own field, and
   * `undefined` for an absent field. Properties of primitives and arrays are
   * not modelled and read as `undefined`.
   */
  function Property(v: Value, key: string): (r: Value)
    requires !Nullish(v)
    ensures v.Object? && key in v.fields ==> r == v.fields[key]
    ensures !(v.Object? && key in v.fields) ==> r == Undefined
  {
    match v
    case Object(fields) => if key in fields then fields[key] else Undefined
    case _ => Undefined
  }

  /** `arguments[i]` of a call: `undefined` past the end of the argument list. */
  function Arg(arguments: seq<Value>, i: nat): (r: Value)
    ensures i < |arguments| ==> r == arguments[i]
    ensures i >= |arguments| ==> r == Undefined
  {
    if i < |arguments| then arguments[i] else Undefined
  }

  /**
   * `a.slice(start)` for a non-negative start: the elements from index `start`
   * on, in order, and the empty array when `start` is at or past the end.
   */
  function SliceFrom(a: seq<Value>, start: nat): (r: seq<Value>)
    ensures |r| == if start <= |a| then |a| - start else 0
    ensures forall i :: 0 <= i < |r| ==> r[i] == a[start + i]
  {
    if start <= |a| then a[start..] else []
  }
}
