/**
 * Values a CDK context lookup can yield, and Python's truth test on them.
 *
 * Context values come from the command line (`-c key=value`, always strings) or from
 * `cdk.json` (any JSON value), so a lookup may yield any JSON-shaped value; a key that is
 * not set yields `None`.
 */
module Context {

  /** A JSON-shaped Python value as returned by a context lookup. */
  datatype Value =
    | Null                            // Python None
    | Bool(b: bool)
    | Int(i: int)
    | Float(x: real)                  // finite floats only
    | Str(s: string)
    | List(items: seq<Value>)
    | Dict(entries: map<string, Value>)

  /** The raw context: the keys that were set and their values. */
  type RawContext = map<string, Value>

  /**
   * Python's `bool(v)`: the false values are exactly None, False, numeric zero and the
   * empty string, list and dict.
   */
  predicate Truthy(v: Value)
    ensures Truthy(v) <==>
      v != Null && v != Bool(false) && v != Int(0) && v != Float(0.0)
      && v != Str("") && v != List([]) && v != Dict(map[])
  {
    match v
    case Null => false
    case Bool(b) => b
    case Int(i) => i != 0
    case Float(x) => x != 0.0
    case Str(s) => |s| > 0
    case List(items) => |items| > 0
    case Dict(entries) => |entries| > 0
  }

  /** `try_get_context(key)`: the value set for `key`, or None when the key is not set. */
  function TryGetContext(ctx: RawContext, key: string): (v: Value)
    ensures key !in ctx ==> v == Null
    ensures key in ctx ==> v == ctx[key]
  {
    if key in ctx then ctx[key] else Null
  }
}
