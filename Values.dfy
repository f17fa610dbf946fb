/**
 * The values a workflow run works on: the run's state bag, the values in it
 * and the shape of what a node returns to the engine.
 */
module Values {

  datatype Option<+T> = None | Some(value: T)

  /** A computation that either gives a value or raises an exception,
      carried as its textual description. */
  datatype Result<+T> = Ok(value: T) | Err(repr: string)

  /** The values the sample tools read and write: None, integers, strings
      and lists of strings. */
  datatype Value =
    | VNone
    | VInt(n: int)
    | VStr(s: string)
    | VStrs(items: seq<string>)

  /** The run's shared working memory: a dictionary from string keys to values. */
  type State = map<string, Value>

  /** Truthiness of a value, as `if v:` and `v or default` see it. */
  predicate Truthy(v: Value)
  {
    match v
    case VNone => false
    case VInt(n) => n != 0
    case VStr(s) => s != ""
    case VStrs(items) => items != []
  }

  /** `d.get(key, default)`. */
  function Get(s: State, key: string, default: Value): (v: Value)
    ensures key in s ==> v == s[key]
    ensures key !in s ==> v == default
  {
    if key in s then s[key] else default
  }

  /** `d.get(key, default) or fallback`: a falsy stored value gives way to the fallback. */
  function GetOr(s: State, key: string, default: Value, fallback: Value): (v: Value)
    ensures Truthy(Get(s, key, default)) ==> v == Get(s, key, default)
    ensures !Truthy(Get(s, key, default)) ==> v == fallback
  {
    var v := Get(s, key, default);
    if Truthy(v) then v else fallback
  }

  /** What the `"state"` key of a node's result holds: nothing, a dictionary
      (a delta to merge) or some other value (ignored by the engine). */
  datatype StateSlot = NoState | StateDict(delta: State) | StateOther(other: Value)

  /** Whether the node's result has a `"next"` key, and the node name (or None) it holds. */
  datatype NextSlot = NoNext | NextKey(target: Option<string>)

  /** What calling a node gives the engine: a value that is not a dictionary,
      a dictionary (its `"state"` and `"next"` keys singled out, every other
      key in `extra`), or a raised exception with its textual description. */
  datatype NodeResult =
    | NotDict
    | Dict(state: StateSlot, next: NextSlot, extra: State)
    | Raises(repr: string)

  /** A node: a callable from the run's state to its result. */
  type Node = State -> NodeResult

  /** Exception descriptions, reduced to the exception's class. */
  const TYPE_ERROR := "TypeError()"
  const VALUE_ERROR := "ValueError()"
  const ATTRIBUTE_ERROR := "AttributeError()"
}
