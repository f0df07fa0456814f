/** The backend client (lib/api): the query of a request, the outcome of the
    request, and the fixed shape every response is brought into. The network
    is a parameter: `server` answers a query with a `Response`. */
module Api {
  import opened JsValues

  /** The search parameters of the request URL, in order. */
  type Query = seq<(string, string)>

  /** The two build-time settings, `VITE_API_BASE_URL` and `VITE_SECRET_KEY`,
      and the URL parser `new URL(text)`: the search parameters the URL
      already carries, or none when it is relative or malformed and the
      constructor throws. */
  datatype Env = Env(baseUrl: Value, secret: Value, parseUrl: string -> Option<Query>)

  /** What `fetch` gives back: a rejection, or a response with its status and
      its body read as text (none when reading fails) and as JSON (none when
      it does not parse). */
  datatype Response =
    | NetworkError(message: string)
    | Reply(ok: bool, status: int, statusText: string, text: Option<string>, json: Option<Value>)

  // ---------------------------------------------------------------------------
  // The query

  /** `query.get(key)`: the first value under `key`. */
  function Param(q: Query, key: string): (r: Option<string>)
    ensures r.Some? ==> exists i :: 0 <= i < |q| && q[i] == (key, r.value)
  {
    if q == [] then None
    else if q[0].0 == key then Some(q[0].1)
    else Param(q[1..], key)
  }

  /** The pairs of `q` not under `key`. */
  function Without(q: Query, key: string): Query {
    if q == [] then [] else (if q[0].0 == key then [] else [q[0]]) + Without(q[1..], key)
  }

  /** `query.set(key, val)`: the first pair under `key` takes the new value and
      the others go; with none, the pair is appended. */
  function SetParam(q: Query, key: string, val: string): Query {
    if q == [] then [(key, val)]
    else if q[0].0 == key then [(key, val)] + Without(q[1..], key)
    else [q[0]] + SetParam(q[1..], key, val)
  }

  /** After the set, `key` reads the new value and every other key reads what
      it read before. */
  lemma {:induction false} SetParamReads(q: Query, key: string, val: string, k: string)
    ensures Param(SetParam(q, key, val), k) == if k == key then Some(val) else Param(q, k)
  {
    if q != [] && q[0].0 != key {
      SetParamReads(q[1..], key, val, k);
    } else if q != [] && k != key {
      WithoutReads(q[1..], key, k);
    }
  }

  /** Dropping the pairs under `key` leaves the other keys' reads alone. */
  lemma {:induction false} WithoutReads(q: Query, key: string, k: string)
    requires k != key
    ensures Param(Without(q, key), k) == Param(q, k)
  {
    if q != [] {
      var rest := Without(q[1..], key);
      WithoutReads(q[1..], key, k);
      if q[0].0 != key {
        assert Without(q, key) == [q[0]] + rest;
        assert ([q[0]] + rest)[1..] == rest;
      } else {
        assert Without(q, key) == rest;
      }
    }
  }

  /** One entry of `Object.entries(params)`: set unless its value is null or
      undefined, as its string form. */
  function ParamStep(q: Query, entry: (string, Value)): Query {
    if Nullish(entry.1) then q else SetParam(q, entry.0, ToStr(entry.1))
  }

  /** The entries applied one after another. */
  function AddParams(q: Query, entries: seq<(string, Value)>): Query {
    if entries == [] then q else ParamStep(AddParams(q, entries[..|entries| - 1]), entries[|entries| - 1])
  }

  /** The value the last entry under `key` that is neither null nor undefined
      holds, if any. */
  function LastSet(entries: seq<(string, Value)>, key: string): (r: Option<Value>)
    ensures r.Some? ==> !Nullish(r.value) && exists i :: 0 <= i < |entries| && entries[i] == (key, r.value)
    ensures r.None? ==> forall i :: 0 <= i < |entries| && entries[i].0 == key ==> Nullish(entries[i].1)
  {
    if entries == [] then None
    else
      var last := entries[|entries| - 1];
      if last.0 == key && !Nullish(last.1) then Some(last.1)
      else LastSet(entries[..|entries| - 1], key)
  }

  /** After the entries, a key reads the string form of the last entry set
      under it, or what it read before when none was. */
  lemma {:induction false} AddParamsReads(q: Query, entries: seq<(string, Value)>, key: string)
    ensures Param(AddParams(q, entries), key) ==
      match LastSet(entries, key)
      case Some(v) => Some(ToStr(v))
      case None => Param(q, key)
  {
    if entries != [] {
      var front := entries[..|entries| - 1];
      var last := entries[|entries| - 1];
      AddParamsReads(q, front, key);
      if !Nullish(last.1) {
        SetParamReads(AddParams(q, front), last.0, ToStr(last.1), key);
      }
    }
  }

  /** `params = {}` then `Object.entries(params || {})` */
  function ParamEntries(params: Value): seq<(string, Value)> {
    Entries(Or(params, Obj([])))
  }

  /** The base URL's own parameters, then `key` and `sheet`, then the
      caller's parameters. */
  function RequestQuery(base: Query, secret: Value, sheetKey: Value, params: Value): Query {
    AddParams(SetParam(SetParam(base, "key", ToStr(secret)), "sheet", ToStr(sheetKey)), ParamEntries(params))
  }

  /** The request carries the secret and the sheet unless a parameter of the
      same name overrides it; every parameter that is not null or undefined
      is carried as its string form; any other key reads what the base URL
      carries. */
  lemma RequestQueryReads(base: Query, secret: Value, sheetKey: Value, params: Value, key: string)
    ensures Param(RequestQuery(base, secret, sheetKey, params), key) ==
      match LastSet(ParamEntries(params), key)
      case Some(v) => Some(ToStr(v))
      case None =>
        if key == "key" then Some(ToStr(secret))
        else if key == "sheet" then Some(ToStr(sheetKey))
        else Param(base, key)
  {
    var q0 := SetParam(base, "key", ToStr(secret));
    var q1 := SetParam(q0, "sheet", ToStr(sheetKey));
    AddParamsReads(q1, ParamEntries(params), key);
    SetParamReads(q0, "sheet", ToStr(sheetKey), key);
    SetParamReads(base, "key", ToStr(secret), key);
  }

  /** The parameter loop of `fetchDataRaw`: sets `key` and `sheet`, then each
      parameter that is not null or undefined. */
  method BuildQuery(base: Query, secret: Value, sheetKey: Value, params: Value) returns (q: Query)
    ensures q == RequestQuery(base, secret, sheetKey, params)
  {
    q := SetParam(base, "key", ToStr(secret));
    q := SetParam(q, "sheet", ToStr(sheetKey));
    ghost var start := q;
    var entries := ParamEntries(params);
    var i := 0;
    while i < |entries|
      invariant 0 <= i <= |entries|
      invariant q == AddParams(start, entries[..i])
    {
      var (k, v) := entries[i];
      if !Nullish(v) {
        q := SetParam(q, k, ToStr(v));
      }
      assert entries[..i + 1][..i] == entries[..i];
      i := i + 1;
    }
    assert entries[..i] == entries;
  }

  // ---------------------------------------------------------------------------
  // The request

  const BaseUrlUnset := "VITE_API_BASE_URL not set"
  const SecretUnset := "VITE_SECRET_KEY not set"
  const InvalidJson := "Invalid JSON from backend"
  const InvalidUrl := "Failed to construct 'URL': Invalid URL"

  /** The message of a response that is not ok. */
  function HttpError(status: int, statusText: string, text: string): string {
    "HTTP " + IntToString(status) + " " + statusText + " " + text
  }

  /** `fetchDataRaw(sheetKey, params)`: the raw JSON of the answer, or the
      error it fails with. */
  function FetchDataRaw(env: Env, sheetKey: Value, params: Value, server: Query -> Response): (r: Completion<Value>)
    ensures !Truthy(env.baseUrl) ==> r == Throw(BaseUrlUnset)
    ensures Truthy(env.baseUrl) && !Truthy(env.secret) ==> r == Throw(SecretUnset)
    ensures Truthy(env.baseUrl) && Truthy(env.secret) && env.parseUrl(ToStr(env.baseUrl)).None? ==>
      r == Throw(InvalidUrl)
  {
    if !Truthy(env.baseUrl) then Throw(BaseUrlUnset)
    else if !Truthy(env.secret) then Throw(SecretUnset)
    else match env.parseUrl(ToStr(env.baseUrl))
      case None => Throw(InvalidUrl)
      case Some(base) => Answer(server(RequestQuery(base, env.secret, sheetKey, params)))
  }

  /** A base URL that parses sends one request, whose query reads as
      `RequestQueryReads` describes from the base URL's own parameters, and
      the outcome is that of the answer. */
  lemma FetchDataRawAsks(env: Env, sheetKey: Value, params: Value, server: Query -> Response, key: string)
    requires Truthy(env.baseUrl) && Truthy(env.secret) && env.parseUrl(ToStr(env.baseUrl)).Some?
    ensures var base := env.parseUrl(ToStr(env.baseUrl)).value;
      var q := RequestQuery(base, env.secret, sheetKey, params);
      && FetchDataRaw(env, sheetKey, params, server) == Answer(server(q))
      && Param(q, key) ==
           match LastSet(ParamEntries(params), key)
           case Some(v) => Some(ToStr(v))
           case None =>
             if key == "key" then Some(ToStr(env.secret))
             else if key == "sheet" then Some(ToStr(sheetKey))
             else Param(base, key)
  {
    RequestQueryReads(env.parseUrl(ToStr(env.baseUrl)).value, env.secret, sheetKey, params, key);
  }

  /** The outcome of one response. */
  function Answer(res: Response): (r: Completion<Value>)
    ensures res.Reply? && !res.ok ==>
      r == Throw(HttpError(res.status, res.statusText, if res.text.Some? then res.text.value else ""))
    ensures res.Reply? && res.ok ==> (r.Normal? <==> res.json.Some?) && (r.Normal? ==> r.value == res.json.value)
    ensures res.Reply? && res.ok && res.json.None? ==> r == Throw(InvalidJson)
  {
    match res
    case NetworkError(m) => Throw(m)
    case Reply(ok, status, statusText, text, json) =>
      if !ok then Throw(HttpError(status, statusText, if text.Some? then text.value else ""))
      else if json.None? then Throw(InvalidJson)
      else Normal(json.value)
  }

  /** A missing setting fails before any request: the server is not asked. */
  lemma SettingsCheckedFirst(env: Env, sheetKey: Value, params: Value, s1: Query -> Response, s2: Query -> Response)
    requires !Truthy(env.baseUrl) || !Truthy(env.secret)
    ensures FetchDataRaw(env, sheetKey, params, s1) == FetchDataRaw(env, sheetKey, params, s2)
  {
  }

  /** The error of a response that is not ok names its status. */
  lemma HttpErrorNamesStatus(status: nat, statusText: string, text: string)
    ensures var m := HttpError(status, statusText, text);
      m[..5] == "HTTP " && m[5..5 + |NatToString(status)|] == NatToString(status) &&
      m[5 + |NatToString(status)|] == ' '
  {
  }

  // ---------------------------------------------------------------------------
  // The response shape

  datatype Shape = Shape(sheet: Value, data: Value, summary: Value, daily: Value, latest: Value, totals: Value)

  /** The shape of a body that is not an object. */
  function EmptyShape(sheetKey: Value): Shape {
    Shape(sheetKey, Arr([]), Arr([]), Arr([]), Arr([]), Obj([]))
  }

  /** `fetchData`'s normalisation of the JSON `json` fetched for `sheetKey`. */
  function ShapeOf(json: Value, sheetKey: Value): (r: Shape)
    ensures !Truthy(json) || !IsObjectType(json) ==> r == EmptyShape(sheetKey)
    ensures Truthy(r.data) && Truthy(r.summary) && Truthy(r.daily) && Truthy(r.latest) && Truthy(r.totals)
    ensures Truthy(r.sheet) || r.sheet == sheetKey
  {
    if !Truthy(json) || !IsObjectType(json) then EmptyShape(sheetKey)
    else
      Shape(Or(Get(json, "sheet"), sheetKey),
            Or(Get(json, "data"), Arr([])),
            Or(Get(json, "summary"), Arr([])),
            Or(Get(json, "daily"), Arr([])),
            Or(Get(json, "latest"), Arr([])),
            Or(Get(json, "totals"), Obj([])))
  }

  /** The shape as the object `fetchData` returns. */
  function ShapeObject(s: Shape): Value {
    Obj([("sheet", s.sheet), ("data", s.data), ("summary", s.summary),
         ("daily", s.daily), ("latest", s.latest), ("totals", s.totals)])
  }

  /** A field the body gives truthily is kept as it is; a falsy one takes its
      default. */
  lemma ShapeKeeps(json: Value, sheetKey: Value)
    requires Truthy(json) && IsObjectType(json)
    ensures var r := ShapeOf(json, sheetKey);
      (Truthy(Get(json, "data")) ==> r.data == Get(json, "data")) &&
      (!Truthy(Get(json, "data")) ==> r.data == Arr([])) &&
      (Truthy(Get(json, "totals")) ==> r.totals == Get(json, "totals")) &&
      (!Truthy(Get(json, "totals")) ==> r.totals == Obj([])) &&
      (Truthy(Get(json, "sheet")) ==> r.sheet == Get(json, "sheet")) &&
      (!Truthy(Get(json, "sheet")) ==> r.sheet == sheetKey) &&
      (Truthy(Get(json, "summary")) ==> r.summary == Get(json, "summary")) &&
      (!Truthy(Get(json, "summary")) ==> r.summary == Arr([])) &&
      (Truthy(Get(json, "daily")) ==> r.daily == Get(json, "daily")) &&
      (!Truthy(Get(json, "daily")) ==> r.daily == Arr([])) &&
      (Truthy(Get(json, "latest")) ==> r.latest == Get(json, "latest")) &&
      (!Truthy(Get(json, "latest")) ==> r.latest == Arr([]))
  {
  }

  /** Normalising a normalised response changes nothing. */
  lemma ShapeStable(json: Value, sheetKey: Value)
    ensures ShapeOf(ShapeObject(ShapeOf(json, sheetKey)), sheetKey) == ShapeOf(json, sheetKey)
  {
    ShapeObjectReads(ShapeOf(json, sheetKey));
  }

  /** Each field of the shape object reads back the shape's field. */
  lemma ShapeObjectReads(s: Shape)
    ensures var o := ShapeObject(s);
      && Get(o, "sheet") == s.sheet && Get(o, "data") == s.data && Get(o, "summary") == s.summary
      && Get(o, "daily") == s.daily && Get(o, "latest") == s.latest && Get(o, "totals") == s.totals
  {
    var e := ShapeObject(s).entries;
    LookupAt(e, "sheet", 0);
    LookupAt(e, "data", 1);
    LookupAt(e, "summary", 2);
    LookupAt(e, "daily", 3);
    LookupAt(e, "latest", 4);
    LookupAt(e, "totals", 5);
  }

  /** `fetchData(sheetKey, params)`: a failure of the request passes through;
      otherwise the normalised shape of the answer. */
  function FetchData(env: Env, sheetKey: Value, params: Value, server: Query -> Response): (r: Completion<Shape>)
    ensures r.Throw? <==> FetchDataRaw(env, sheetKey, params, server).Throw?
    ensures r.Normal? ==> r.value == ShapeOf(FetchDataRaw(env, sheetKey, params, server).value, sheetKey)
  {
    match FetchDataRaw(env, sheetKey, params, server)
    case Throw(m) => Throw(m)
    case Normal(json) => Normal(ShapeOf(json, sheetKey))
  }
}
