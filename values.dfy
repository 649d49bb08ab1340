/** The values that travel in a request: the JSON-like Python values the endpoint
    facades put in query strings and bodies, the parameter maps they build, and the
    request descriptor each facade method hands to the session. */
module Values {

  datatype Option<+T> = None | Some(value: T)

  /** A Python value as it appears in a parameter map; `Null` is Python's `None`. */
  datatype Value =
    | Null
    | Bool(b: bool)
    | Int(i: int)
    | Str(s: string)
    | List(items: seq<Value>)
    | Dict(entries: map<string, Value>)

  /** A query-parameter map or a JSON body object. */
  type Params = map<string, Value>

  /** The session verb a facade method calls. */
  datatype Verb = GET | POST | PUT

  /** What a facade method does instead of talking to the network: the request it
      would send, the multipart upload it would send, or the local error it raises. */
  datatype Outcome =
    | Req(verb: Verb, target: string, params: Params)
    | MultipartUpload(target: string, filePath: Option<string>, fileBytes: Option<seq<bv8>>, params: Params)
    | NotImplemented
    | PathError

  /** `dict_merge` and `str_bool` of inventaire/utils/common.py, which is not part of
      this model. They are supplied by the caller, so nothing is assumed about which
      side `dictMerge` lets win or which strings `strBool` produces. */
  datatype Utils = Utils(dictMerge: (Params, Params) -> Params, strBool: Value -> Value)

  /** Python truthiness of a `str | None`: `None` and the empty string are falsy. */
  function Truthy(o: Option<string>): (b: bool)
    ensures o.None? ==> !b
    ensures o == Some("") ==> !b
    ensures o.Some? && o.value != "" ==> b
  {
    o.Some? && o.value != ""
  }

  /** The `data` argument after `if data is None: data = {}`. */
  function OrEmpty(data: Option<Params>): (d: Params)
    ensures data.None? ==> d == map[]
    ensures data.Some? ==> d == data.value
  {
    match data
    case None => map[]
    case Some(m) => m
  }

  function OfString(o: Option<string>): (v: Value)
    ensures v == Null <==> o.None?
    ensures o.Some? ==> v == Str(o.value)
  {
    match o
    case None => Null
    case Some(s) => Str(s)
  }

  function OfInt(o: Option<int>): (v: Value)
    ensures v == Null <==> o.None?
    ensures o.Some? ==> v == Int(o.value)
  {
    match o
    case None => Null
    case Some(i) => Int(i)
  }

  function OfBool(o: Option<bool>): (v: Value)
    ensures v == Null <==> o.None?
    ensures o.Some? ==> v == Bool(o.value)
  {
    match o
    case None => Null
    case Some(b) => Bool(b)
  }

  /** The comprehension `{k: v for k, v in m.items() if v is not None}`. */
  function DropNone(m: Params): (r: Params)
    ensures r.Keys <= m.Keys
    ensures forall k :: k in m ==> (k in r <==> m[k] != Null)
    ensures forall k :: k in r ==> r[k] == m[k]
  {
    map k | k in m && m[k] != Null :: m[k]
  }

  /** In `fixed + DropNone(opt)`, an optional key that no fixed key shadows is kept
      exactly when its value is not None. */
  lemma FilteredKey(fixed: Params, opt: Params, k: string)
    requires k in opt && k !in fixed
    ensures KeptUnlessNone(fixed + DropNone(opt), k, opt[k])
  {
  }

  /** Key `k` of `p` is present and holds `v`. */
  predicate Holds(p: Params, k: string, v: Value)
  {
    k in p && p[k] == v
  }

  /** Key `k` of `p` is present exactly when `v` is not None, and then holds `v`. */
  predicate KeptUnlessNone(p: Params, k: string, v: Value)
  {
    (k in p <==> v != Null) && (k in p ==> p[k] == v)
  }
}
