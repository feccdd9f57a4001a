/**
 The Python values that the argument documentation code stores in and reads
 from its dictionaries, with the few pieces of Python semantics it relies on:
 truthiness (`if operation:`, `x or y`), hashability (dictionary keys and
 `in` tests on a dict) and the exceptions a failed lookup raises.
 */
module PyValues {

  /** A Python value. `Object` stands for any other object (a marshmallow
      schema instance, an example object): truthy, hashable, not iterable. */
  datatype Value =
    | Null
    | Bool(b: bool)
    | Int(i: int)
    | Str(s: string)
    | Object(id: nat)
    | List(items: seq<Value>)
    | Dict(entries: map<Value, Value>)

  /** The exceptions raised by the modelled code. `Interrupt` stands for a
      `BaseException` that is not an `Exception` (`KeyboardInterrupt`,
      `SystemExit`), which an `except Exception` clause does not catch. */
  datatype Error = KeyError | TypeError | AttributeError | ValueError | IndexError | Interrupt

  datatype Option<+T> = None | Some(value: T)

  datatype Result<+T> = Ok(value: T) | Err(error: Error)

  /** Python truth value of `v` (`bool(v)`). */
  predicate Truthy(v: Value)
  {
    match v
    case Null => false
    case Bool(b) => b
    case Int(i) => i != 0
    case Str(s) => s != ""
    case Object(_) => true
    case List(xs) => xs != []
    case Dict(m) => m != map[]
  }

  /** Lists and dicts are unhashable: using one as a dictionary key, or
      testing it with `in` against a dict, raises TypeError. */
  predicate Hashable(v: Value)
  {
    !v.List? && !v.Dict?
  }

  /** `x or y` */
  function Or(x: Value, y: Value): (r: Value)
    ensures Truthy(x) ==> r == x
    ensures !Truthy(x) ==> r == y
  {
    if Truthy(x) then x else y
  }

  /** `d.pop(k, None)`: the removed value (or `None`) and the dict without `k`. */
  function Pop(d: map<Value, Value>, k: Value): (r: (Value, map<Value, Value>))
    ensures r.1.Keys == d.Keys - {k}
    ensures forall x :: x in r.1 ==> r.1[x] == d[x]
    ensures k in d ==> r.0 == d[k]
    ensures k !in d ==> r.0 == Null
  {
    (if k in d then d[k] else Null, d - {k})
  }

  /** `d.setdefault(k, default)`: the value now stored under `k` and the dict
      after the call. */
  function SetDefault(d: map<Value, Value>, k: Value, default: Value): (r: (Value, map<Value, Value>))
    ensures k in r.1 && r.1[k] == r.0
    ensures k in d ==> r.1 == d && r.0 == d[k]
    ensures k !in d ==> r.1 == d[k := default] && r.0 == default
  {
    if k in d then (d[k], d) else (default, d[k := default])
  }
}
