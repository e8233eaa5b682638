/** The table (meja) API service: the request each call builds, the bearer token written into
    the config's header object, the message of a refused answer and how the list and lookup
    calls read their answer. The server is an oracle: each call is handed its `Exchange`. */
module MejaApiModel {
  import opened Wrappers
  import opened Text
  import opened Js
  import opened JsonData
  import opened CheckoutApi
  import ApiEndpoints

  const FallbackBase := "http://localhost:8080"

  /** `REACT_APP_API_URL || 'http://localhost:8080'`. */
  function BaseUrl(env: Option<string>): (r: string)
    ensures Present(env) ==> r == env.value
    ensures !Present(env) ==> r == FallbackBase
  {
    OrText(env, FallbackBase)
  }

  /** A headers object; `makeRequest` may write into one the caller owns. */
  class HeaderObject {
    var entries: map<string, string>

    constructor (e: map<string, string>)
      ensures entries == e
    {
      entries := e;
    }
  }

  /** The `options` a call passes; `token` is the caller's token argument. */
  datatype MejaOptions = MejaOptions(verb: Verb, token: Option<string>, headers: Option<HeaderObject>, body: Option<Json>)

  /** The config's headers: `...options` puts the caller's own object in place of the merged
      one, and `config.headers.Authorization = …` then writes into that object. */
  method ConfigureHeaders(options: MejaOptions) returns (headers: HeaderObject)
    modifies if options.headers.Some? then {options.headers.value} else {}
    ensures options.headers.Some? ==> headers == options.headers.value
    ensures options.headers.None? ==> fresh(headers)
    ensures var start := if options.headers.Some? then old(options.headers.value.entries)
                         else map["Content-Type" := "application/json"];
            headers.entries == if Present(options.token) then start["Authorization" := "Bearer " + options.token.value] else start
  {
    if options.headers.Some? {
      headers := options.headers.value;
    } else {
      headers := new HeaderObject(map["Content-Type" := "application/json"]);
    }
    if Present(options.token) {
      headers.entries := headers.entries["Authorization" := "Bearer " + options.token.value];
    }
  }

  /** A caller that passes its own headers object along with a token finds the token written
      into that object, and the request goes without the JSON content type. */
  method CallerHeadersGainToken() returns (callerEntries: map<string, string>)
    ensures callerEntries == map["X-Trace" := "1", "Authorization" := "Bearer t"]
  {
    var own := new HeaderObject(map["X-Trace" := "1"]);
    var headers := ConfigureHeaders(MejaOptions(GET, Some("t"), Some(own), None));
    assert "Bearer " + "t" == "Bearer t";
    callerEntries := own.entries;
  }

  /** The calls of the service, with what they put in the request. */
  datatype MejaCall =
    | AllMeja
    | MejaByNomor(nomor: Scalar)
    | CreateMeja(meja: Json)
    | UpdateMeja(id: Scalar, meja: Json)
    | DeleteMeja(id: Scalar)
    | SetUser(id: Scalar, username: Option<Json>)
    | CompleteOrder(id: Scalar)
    | LoginCall(credentials: Json)
    | RegisterCall(user: Json)
    | AllMenus

  /** Sign-in and sign-up pass no token; every other call passes the caller's. */
  predicate CarriesToken(c: MejaCall) {
    !(c.LoginCall? || c.RegisterCall?)
  }

  /** `JSON.stringify({ username })`: an undefined username leaves the object empty. */
  function UsernameBody(username: Option<Json>): (j: Json)
    ensures j.JObj? && (Get(j, "username") == username)
  {
    JObj(if username.Some? then map["username" := username.value] else map[])
  }

  function RouteOf(c: MejaCall): (r: ApiEndpoints.Route)
    ensures r.verb == GET <==> c.AllMeja? || c.MejaByNomor? || c.AllMenus?
    ensures r.verb == DELETE <==> c.DeleteMeja?
    ensures r.body.Some? <==> c.CreateMeja? || c.UpdateMeja? || c.SetUser? || c.LoginCall? || c.RegisterCall?
  {
    match c
    case AllMeja => ApiEndpoints.Route(GET, "/meja/admin/read", None)
    case MejaByNomor(n) => ApiEndpoints.Route(GET, "/meja/admin/read/" + ToText(n), None)
    case CreateMeja(m) => ApiEndpoints.Route(POST, "/meja/admin/create", Some(m))
    case UpdateMeja(id, m) => ApiEndpoints.Route(POST, "/meja/admin/update/" + ToText(id), Some(m))
    case DeleteMeja(id) => ApiEndpoints.Route(DELETE, "/meja/admin/delete/" + ToText(id), None)
    case SetUser(id, u) => ApiEndpoints.Route(POST, "/meja/user/set/" + ToText(id), Some(UsernameBody(u)))
    case CompleteOrder(id) => ApiEndpoints.Route(POST, "/meja/user/complete_order/" + ToText(id), None)
    case LoginCall(cr) => ApiEndpoints.Route(POST, "/auth/login", Some(cr))
    case RegisterCall(u) => ApiEndpoints.Route(POST, "/auth/register", Some(u))
    case AllMenus => ApiEndpoints.Route(GET, "/menu/read", None)
  }

  /** The message of the TypeError thrown by reading a property of `null`. */
  function NullProperty(property: string): string {
    "Cannot read properties of null (reading '" + property + "')"
  }

  /** What `makeRequest` resolves to or throws: a refused answer throws its body's `message`,
      with an unparsable body read as `{}` and the status line as the fallback; a `null` body
      throws a TypeError; a network failure is rethrown. */
  function Respond(ex: Exchange<Option<Json>>): (r: Result<Json>)
    ensures ex.Unreachable? ==> r == Err(ex.message)
    ensures ex.Answered? && IsOk(ex.status) ==> (r.Ok? <==> ex.data.Some?) && (r.Ok? ==> r.value == ex.data.value)
    ensures ex.Answered? && !IsOk(ex.status) ==> r.Err?
  {
    match ex
    case Unreachable(m) => Err(m)
    case Answered(status, _, parsed) =>
      if IsOk(status) then
        (if parsed.Some? then Ok(parsed.value) else Err(JsonSyntaxError))
      else
        var errorData := parsed.GetOr(JObj(map[]));
        if errorData.JNull? then Err(NullProperty("message"))
        else
          var message := Get(errorData, "message");
          Err(if OptTruthy(message) then StringOf(message.value) else ApiEndpoints.HttpError(status))
  }

  /** A refused answer whose body is an object with a non-empty text `message` throws that
      text; an unparsable or message-less body throws the status line. */
  lemma RefusalMessage(status: int, text: string, parsed: Option<Json>)
    requires !IsOk(status)
    ensures parsed.Some? && Get(parsed.value, "message").Some? && Get(parsed.value, "message").value.JStr?
            && Get(parsed.value, "message").value.s != "" ==>
              Respond(Answered(status, text, parsed)) == Err(Get(parsed.value, "message").value.s)
    ensures parsed.None? || (!parsed.value.JNull? && !OptTruthy(Get(parsed.value, "message"))) ==>
              Respond(Answered(status, text, parsed)) == Err(ApiEndpoints.HttpError(status))
  {
  }

  /** `response.key || []` (a `null` response throws). */
  function ListField(r: Result<Json>, key: string): (l: Result<Json>)
    ensures r.Err? ==> l == r
    ensures r.Ok? && r.value.JNull? ==> l == Err(NullProperty(key))
    ensures r.Ok? && !r.value.JNull? ==> l.Ok? && JsonTruthy(l.value)
    ensures r.Ok? && OptTruthy(Get(r.value, key)) ==> l == Ok(Get(r.value, key).value)
  {
    match r
    case Err(m) => Err(m)
    case Ok(v) =>
      if v.JNull? then Err(NullProperty(key))
      else
        var field := Get(v, key);
        Ok(if OptTruthy(field) then field.value else JArr([]))
  }

  /** `response.key`, which may be undefined (a `null` response throws). */
  function FieldOf(r: Result<Json>, key: string): (f: Result<Option<Json>>)
    ensures r.Err? ==> f == Err(r.message)
    ensures r.Ok? && r.value.JNull? ==> f == Err(NullProperty(key))
    ensures r.Ok? && !r.value.JNull? ==> f == Ok(Get(r.value, key))
  {
    match r
    case Err(m) => Err(m)
    case Ok(v) => if v.JNull? then Err(NullProperty(key)) else Ok(Get(v, key))
  }

  /** What each call returns from the decoded answer: the `meja` list, the `meja` field, the
      `menus` list, or the whole answer. */
  function Decode(c: MejaCall, r: Result<Json>): (d: Result<Option<Json>>)
    ensures r.Err? ==> d == Err(r.message)
    ensures d.Ok? && !c.MejaByNomor? ==> d.value.Some?
  {
    match c
    case AllMeja => (match ListField(r, "meja") case Ok(l) => Ok(Some(l)) case Err(m) => Err(m))
    case AllMenus => (match ListField(r, "menus") case Ok(l) => Ok(Some(l)) case Err(m) => Err(m))
    case MejaByNomor(_) => FieldOf(r, "meja")
    case _ => (match r case Ok(v) => Ok(Some(v)) case Err(m) => Err(m))
  }

  /** One call: a request the service sends, and what the call returns or throws. */
  datatype Served = Served(url: string, verb: Verb, headers: map<string, string>, body: Option<Json>,
                           result: Result<Option<Json>>)

  /** A call made through `makeRequest` with the caller's `token` and no caller headers. */
  method Call(c: MejaCall, env: Option<string>, token: Option<string>, ex: Exchange<Option<Json>>) returns (s: Served)
    ensures s.url == BaseUrl(env) + RouteOf(c).path && s.verb == RouteOf(c).verb && s.body == RouteOf(c).body
    ensures "Content-Type" in s.headers && s.headers["Content-Type"] == "application/json"
    ensures "Authorization" in s.headers <==> CarriesToken(c) && Present(token)
    ensures "Authorization" in s.headers ==> s.headers["Authorization"] == "Bearer " + token.value
    ensures s.headers.Keys <= {"Content-Type", "Authorization"}
    ensures s.result == Decode(c, Respond(ex))
  {
    var route := RouteOf(c);
    var options := MejaOptions(route.verb, if CarriesToken(c) then token else None, None, route.body);
    var headers := ConfigureHeaders(options);
    s := Served(BaseUrl(env) + route.path, route.verb, headers.entries, route.body, Decode(c, Respond(ex)));
  }

  /** The table list is never undefined: an answer without a truthy `meja` gives the empty list,
      and one with a list gives that list. */
  lemma AllMejaDefaultsToEmpty(answer: Json)
    requires answer.JObj? && "meja" !in answer.fields
    ensures Decode(AllMeja, Ok(answer)) == Ok(Some(JArr([])))
    ensures Decode(MejaByNomor(Num(1)), Ok(answer)) == Ok(None)
  {
  }
}
