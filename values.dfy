/** Decoded JSON values as the bridge sees them after `json.loads`, the Python
    exceptions that reading them can raise, and the two dictionary accessors the
    bridge uses: `d.get(k)` and `d[k]`. */
module Values {

  /** A decoded JSON document. Numbers are integers only. */
  datatype Json =
    | JNull
    | JBool(b: bool)
    | JNum(n: int)
    | JStr(s: string)
    | JArr(items: seq<Json>)
    | JObj(fields: map<string, Json>)

  datatype Option<+T> = None | Some(value: T)

  /** The exceptions that can end a bridge session. */
  datatype Fault =
    | KeyError(key: string)      // `d[k]` on a dictionary without key k
    | TypeError                  // `v[k]` on a value that is not a dictionary
    | AttributeError             // `v.get(k)` on a value that is not a dictionary
    | ConnectionClosed           // a send on the AI connection after it was closed
    | ConnectFailed(reason: string)  // opening the AI connection failed with this text

  datatype Result<+T> = Success(value: T) | Failure(error: Fault) {
    predicate IsFailure() { Failure? }
    function PropagateFailure<U>(): Result<U> requires Failure? { Failure(error) }
    function Extract(): T requires Success? { value }
  }

  /** `v.get(key)`: None when the key is absent. */
  function Lookup(v: Json, key: string): (r: Result<Option<Json>>)
    ensures r.Failure? <==> !v.JObj?
    ensures r.Failure? ==> r.error == AttributeError
    ensures r.Success? ==> (r.value.Some? <==> key in v.fields)
    ensures r.Success? && r.value.Some? ==> r.value.value == v.fields[key]
  {
    match v
    case JObj(m) => Success(if key in m then Some(m[key]) else None)
    case _ => Failure(AttributeError)
  }

  /** `v[key]`: a KeyError when the key is absent, a TypeError on a non-dictionary. */
  function Index(v: Json, key: string): (r: Result<Json>)
    ensures r.Success? <==> v.JObj? && key in v.fields
    ensures r.Success? ==> r.value == v.fields[key]
    ensures r.Failure? ==> r.error == (if v.JObj? then KeyError(key) else TypeError)
  {
    match v
    case JObj(m) => if key in m then Success(m[key]) else Failure(KeyError(key))
    case _ => Failure(TypeError)
  }

  /** `d.get(key) == JStr(name)`, stated on the map itself. */
  predicate FieldIs(d: Json, key: string, name: string) {
    d.JObj? && key in d.fields && d.fields[key] == JStr(name)
  }

  /** `d[outer][inner]` exists. */
  predicate HasPath(d: Json, outer: string, inner: string) {
    d.JObj? && outer in d.fields && d.fields[outer].JObj? && inner in d.fields[outer].fields
  }

  function At(d: Json, outer: string, inner: string): Json
    requires HasPath(d, outer, inner)
  {
    d.fields[outer].fields[inner]
  }

  /** The exception Python raises for `d[outer][inner]` on a dictionary `d`,
      or None when the path exists. */
  function PathFault(d: Json, outer: string, inner: string): (r: Option<Fault>)
    requires d.JObj?
    ensures r.None? <==> HasPath(d, outer, inner)
  {
    if outer !in d.fields then Some(KeyError(outer))
    else if !d.fields[outer].JObj? then Some(TypeError)
    else if inner !in d.fields[outer].fields then Some(KeyError(inner))
    else None
  }

  /** Python truthiness of a decoded JSON value (`if not v`). */
  predicate Truthy(v: Json): (t: bool)
    ensures !t <==> v in {JNull, JBool(false), JNum(0), JStr(""), JArr([]), JObj(map[])}
  {
    match v
    case JNull => false
    case JBool(b) => b
    case JNum(n) => n != 0
    case JStr(s) => s != ""
    case JArr(items) => items != []
    case JObj(fields) => fields != map[]
  }

  /** `str(e)` for the exceptions above. A KeyError prints its key in quotes. */
  function Describe(f: Fault): (s: string)
    ensures f.KeyError? ==> |s| == |f.key| + 2 && s[0] == '\'' && s[|s| - 1] == '\'' && s[1..|s| - 1] == f.key
    ensures f.ConnectFailed? ==> s == f.reason
  {
    match f
    case KeyError(key) => "'" + key + "'"
    case TypeError => "TypeError"
    case AttributeError => "AttributeError"
    case ConnectionClosed => "ConnectionClosed"
    case ConnectFailed(reason) => reason
  }
}
