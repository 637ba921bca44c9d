/**
 * Python values as they travel through the client: decoded JSON objects, the
 * byte strings numpy hands back, and the exceptions the operations on them raise.
 * The helpers below give Python's semantics for `v[key]`, `v[i]`, `v.get(key, d)`,
 * `prefix + v` and truthiness, so that every failure the source would raise shows
 * up as an `Err` rather than being ruled out by a precondition.
 */
module Values {
  import opened Common

  /** A Python value of the kinds JSON decoding and the codec helpers produce. */
  datatype Value =
    | Null
    | Bool(b: bool)
    | Int(i: int)
    | Real(r: real)
    | Str(s: string)
    | Bytes(data: seq<byte>)
    | List(items: seq<Value>)
    | Object(fields: map<string, Value>)

  /** The exceptions the modelled code raises or catches. */
  datatype Exc =
    | KeyError
    | IndexError
    | TypeError
    | AttributeError
    | UnboundLocalError
    | JsonDecodeError
    | Base64Error
    | ValueError            // merge_int16_arrays: "Both items must be numpy arrays of int16"
    | NotConnected          // send: "RealtimeAPI is not connected"
    | NotADictionary        // send: "data must be a dictionary"
    | ConnectionFailed      // the websocket handshake failed
    | BackendError          // an exception raised by a search, database or issue-tracker call

  datatype Result<+T> = Ok(value: T) | Err(exc: Exc) {
    predicate IsFailure() {
      Err?
    }

    function PropagateFailure<U>(): Result<U>
      requires Err?
    {
      Err(exc)
    }

    function Extract(): T
      requires Ok?
    {
      value
    }
  }

  /** Python's `bool(v)`. */
  predicate Truthy(v: Value) {
    match v
    case Null => false
    case Bool(b) => b
    case Int(i) => i != 0
    case Real(r) => r != 0.0
    case Str(s) => s != ""
    case Bytes(d) => d != []
    case List(xs) => xs != []
    case Object(m) => m != map[]
  }

  /** `v[key]` with a string key: only a dict has string keys. */
  function Subscript(v: Value, key: string): (r: Result<Value>)
    ensures r.Ok? <==> v.Object? && key in v.fields
    ensures r.Ok? ==> r.value == v.fields[key]
    ensures v.Object? && key !in v.fields ==> r == Err(KeyError)
  {
    match v
    case Object(m) => if key in m then Ok(m[key]) else Err(KeyError)
    case _ => Err(TypeError)
  }

  /** `v[i]` with a non-negative integer index. */
  function Index(v: Value, i: nat): (r: Result<Value>)
    ensures v.List? && i < |v.items| ==> r == Ok(v.items[i])
    ensures v.List? && i >= |v.items| ==> r == Err(IndexError)
  {
    match v
    case List(xs) => if i < |xs| then Ok(xs[i]) else Err(IndexError)
    case Str(s) => if i < |s| then Ok(Str([s[i]])) else Err(IndexError)
    case Bytes(d) => if i < |d| then Ok(Int(d[i] as int)) else Err(IndexError)
    case Object(_) => Err(KeyError)  // decoded JSON objects have string keys only
    case _ => Err(TypeError)
  }

  /** `v.get(key, default)`: only a dict has a `get` method. */
  function Get(v: Value, key: string, default: Value): (r: Result<Value>)
    ensures r.Ok? <==> v.Object?
    ensures v.Object? ==> r.value == if key in v.fields then v.fields[key] else default
  {
    match v
    case Object(m) => Ok(if key in m then m[key] else default)
    case _ => Err(AttributeError)
  }

  /** `prefix + v` where `prefix` is a `str`: only another `str` may follow. */
  function AddStr(prefix: string, v: Value): (r: Result<string>)
    ensures r.Ok? <==> v.Str?
    ensures v.Str? ==> r.value == prefix + v.s
  {
    match v
    case Str(s) => Ok(prefix + s)
    case _ => Err(TypeError)
  }

  /**
   * What a call of a registered tool comes to: a returned string, a raised
   * exception, or process termination by `exit(status)` (a `SystemExit`, which
   * `except Exception` does not catch).
   */
  datatype ToolResult = Returned(text: string) | Raised(exc: Exc) | ProcessExit(status: int)
}
