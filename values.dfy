/** The Python values that flow through chatblade's dictionaries (argparse namespaces,
    option dicts, prompt configs), their truthiness, and the exceptions the model raises. */
module Values {
  import opened Wrappers

  /** A dictionary value. Floats are kept as reals: the model never does float arithmetic. */
  datatype Value =
    | Null
    | Bool(b: bool)
    | Int(i: int)
    | Float(x: real)
    | Str(s: string)
    | StrList(items: seq<string>)

  type Dict = map<string, Value>

  /** Python's truth value of a value (`if v:`). */
  predicate Truthy(v: Value)
    ensures v == Null ==> !Truthy(v)
    ensures v.Str? ==> (Truthy(v) <==> TruthyText(Some(v.s)))
  {
    match v
    case Null => false
    case Bool(b) => b
    case Int(i) => i != 0
    case Float(x) => x != 0.0
    case Str(s) => s != ""
    case StrList(items) => items != []
  }

  /** Truth value of an optional string (`None` and `""` are both false). */
  predicate TruthyText(s: Option<string>) {
    s.Some? && s.value != ""
  }

  /** The exceptions that the modelled code can raise. */
  datatype Fault =
    | IndexError
    | KeyError(key: string)
    | ValueError(msg: string)
    | TypeError
    | JsonDecodeError
    | FileNotFound(path: string)
    | SystemExit
    | EOFError

  /** `d[k]`: the value, or KeyError when the key is missing. */
  function Get(d: Dict, k: string): (r: Result<Value, Fault>)
    ensures r.Success? <==> k in d
    ensures r.Success? ==> r.value == d[k]
    ensures r.Failure? ==> r.error == KeyError(k)
  {
    if k in d then Success(d[k]) else Failure(KeyError(k))
  }

  /** `{k: v for k, v in d.items() if v is not None}`. */
  function DropNone(d: Dict): (r: Dict)
    ensures forall k :: k in r <==> k in d && d[k] != Null
    ensures forall k :: k in r ==> r[k] == d[k]
  {
    map k | k in d && d[k] != Null :: d[k]
  }
}
