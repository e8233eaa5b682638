/** The fetch-based API client: the request `makeRequest` builds from the base URL, the call's
    options and the stored token, and how it turns the answer into a value or a thrown `Error`.
    The server is an oracle: each call is handed the `Exchange` it had and the answer's
    content type. */
module FetchClientModel {
  import opened Wrappers
  import opened Text
  import opened Js
  import opened JsonData
  import opened CheckoutApi
  import opened ApiEndpoints

  const DefaultBase := "http://localhost:8080/api"

  /** The `options` a call passes: a verb, replacement headers, a JSON body. */
  datatype Options = Options(verb: Option<Verb>, headers: Option<map<string, string>>, body: Option<Json>)

  /** What `fetch(url, config)` is given; a missing `method` is a GET. */
  datatype FetchRequest = FetchRequest(url: string, verb: Verb, headers: map<string, string>, body: Option<Json>)

  /** A successful call's value: the decoded JSON or the raw text. */
  datatype Body = JsonBody(value: Json) | TextBody(text: string)

  /** `{ 'Content-Type': …, ...(token && { Authorization }), ...extra }`: later keys win. */
  function MergedHeaders(token: Option<string>, extra: map<string, string>): (h: map<string, string>)
    ensures forall k :: k in extra ==> k in h && h[k] == extra[k]
    ensures "Content-Type" in h && ("Content-Type" !in extra ==> h["Content-Type"] == "application/json")
    ensures "Authorization" in h <==> Present(token) || "Authorization" in extra
    ensures "Authorization" !in extra && Present(token) ==> h["Authorization"] == "Bearer " + token.value
  {
    AuthHeaders(token) + extra
  }

  /** The request as `makeRequest` writes it: `...options` comes after the merged `headers`, so a
      caller's `headers` replace the merged ones outright. */
  function RequestAsWritten(base: string, endpoint: string, options: Options, token: Option<string>): (r: FetchRequest)
    ensures r.url == base + endpoint && r.verb == options.verb.GetOr(GET) && r.body == options.body
    ensures options.headers.Some? ==> r.headers == options.headers.value
    ensures options.headers.None? ==> r.headers == MergedHeaders(token, map[])
  {
    var merged := MergedHeaders(token, options.headers.GetOr(map[]));
    var headers := if options.headers.Some? then options.headers.value else merged;
    FetchRequest(base + endpoint, options.verb.GetOr(GET), headers, options.body)
  }

  /** The request with the caller's headers merged over the defaults, as the header spread
      inside `headers` intends. */
  function Request(base: string, endpoint: string, options: Options, token: Option<string>): (r: FetchRequest)
    ensures r.url == base + endpoint && r.verb == options.verb.GetOr(GET) && r.body == options.body
    ensures r.headers == MergedHeaders(token, options.headers.GetOr(map[]))
  {
    FetchRequest(base + endpoint, options.verb.GetOr(GET), MergedHeaders(token, options.headers.GetOr(map[])), options.body)
  }

  /** No call of this client passes headers, so for every call the two requests agree. */
  lemma NoCallerHeadersNoDifference(base: string, endpoint: string, options: Options, token: Option<string>)
    requires options.headers.None?
    ensures RequestAsWritten(base, endpoint, options, token) == Request(base, endpoint, options, token)
  {
  }

  /** As written, a caller's extra header drops the content type and the stored token. */
  lemma ExtraHeaderDropsToken()
    ensures var options := Options(None, Some(map["X-Trace" := "1"]), None);
            var asWritten := RequestAsWritten(DefaultBase, "/menus", options, Some("abc"));
            var merged := Request(DefaultBase, "/menus", options, Some("abc"));
            "Authorization" !in asWritten.headers && "Content-Type" !in asWritten.headers
            && merged.headers["Authorization"] == "Bearer abc" && merged.headers["Content-Type"] == "application/json"
  {
    var options := Options(None, Some(map["X-Trace" := "1"]), None);
    assert "X-Trace" != "Authorization" && "X-Trace" != "Content-Type";
  }

  /** The options each endpoint passes: its verb when not a GET, and its JSON body. */
  function OptionsOf(e: Endpoint): (o: Options)
    ensures o.headers.None? && o.body == RouteOf(e).body
    ensures o.verb.GetOr(GET) == RouteOf(e).verb
  {
    var route := RouteOf(e);
    Options(if route.verb == GET then None else Some(route.verb), None, route.body)
  }

  /** Every endpoint reaches the base URL plus its path, with its verb and body, the JSON content
      type, and a bearer token exactly when a non-empty one is stored. */
  lemma EndpointRequest(base: string, e: Endpoint, token: Option<string>)
    ensures var r := Request(base, RouteOf(e).path, OptionsOf(e), token);
            r.url == base + RouteOf(e).path && r.verb == RouteOf(e).verb && r.body == RouteOf(e).body
            && r.headers == AuthHeaders(token)
            && r == RequestAsWritten(base, RouteOf(e).path, OptionsOf(e), token)
  {
    assert AuthHeaders(token) + map[] == AuthHeaders(token);
  }

  /** `contentType && contentType.includes('application/json')`. */
  predicate JsonContent(contentType: Option<string>) {
    Present(contentType) && Contains(contentType.value, "application/json")
  }

  /** What `makeRequest` resolves to or throws, given the exchange (whose data is the body's
      parsed JSON, `None` when it does not parse) and the answer's content type. A failure is
      rethrown unchanged. */
  function Respond(ex: Exchange<Option<Json>>, contentType: Option<string>): (r: Result<Body>)
    ensures ex.Unreachable? ==> r == Err(ex.message)
    ensures ex.Answered? && !IsOk(ex.status) ==> r.Err? && r.message != ""
  {
    match ex
    case Unreachable(m) => Err(m)
    case Answered(status, text, parsed) =>
      if !IsOk(status) then Err(if text != "" then text else HttpError(status))
      else if JsonContent(contentType) then
        (if parsed.Some? then Ok(JsonBody(parsed.value)) else Err(JsonSyntaxError))
      else Ok(TextBody(text))
  }

  /** A refused answer's message is its body text, or the status line when the body is empty. */
  lemma RefusalMessage(status: int, text: string, parsed: Option<Json>, contentType: Option<string>)
    requires !IsOk(status)
    ensures text != "" ==> Respond(Answered(status, text, parsed), contentType) == Err(text)
    ensures text == "" ==> Respond(Answered(status, text, parsed), contentType) == Err(HttpError(status))
  {
  }

  /** A successful answer decodes as JSON exactly when it is declared JSON; it fails only when
      declared JSON and not parsable, and otherwise comes back as its text. */
  lemma SuccessDecoding(status: int, text: string, parsed: Option<Json>, contentType: Option<string>)
    requires IsOk(status)
    ensures var r := Respond(Answered(status, text, parsed), contentType);
            (r.Ok? && r.value.JsonBody? <==> JsonContent(contentType) && parsed.Some?)
            && (r.Err? <==> JsonContent(contentType) && parsed.None?)
            && (r.Ok? && r.value.JsonBody? ==> r.value.value == parsed.value)
            && (r.Ok? && r.value.TextBody? ==> r.value.text == text && !JsonContent(contentType))
  {
  }

  /** A content type naming JSON with a charset still decodes as JSON. */
  lemma CharsetStillJson()
    ensures JsonContent(Some("application/json; charset=utf-8"))
  {
    var ct := "application/json; charset=utf-8";
    assert OccursAt(ct, "application/json", 0) by {
      assert ct[0..16] == "application/json";
    }
  }
}
