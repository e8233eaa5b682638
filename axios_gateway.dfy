/** The two axios-based clients: the menu-management client and the auth repository. Both add a
    bearer token from storage to every request, unwrap a successful answer's `data`, clear the
    session and reload the page on a 401, and rethrow a failure with one message chosen from the
    answer; each endpoint then prefixes that message with its own words. They differ in the
    storage key of the token, the keys a 401 clears, the base URL and the endpoints offered. The
    server is an oracle: each call is handed what the request came to. */
module AxiosGatewayModel {
  import opened Wrappers
  import opened Text
  import opened Js
  import opened JsonData
  import opened Session
  import opened CheckoutApi
  import opened ApiEndpoints

  /** A header value: plain text, or `Bearer ${token}` of a stored item. */
  datatype Header = Plain(text: string) | BearerOf(token: Item)

  /** The client's default headers. */
  const DefaultHeaders: map<string, Header> := map["Content-Type" := Plain("application/json")]

  /** A request as the adapter sends it. */
  datatype AxiosRequest = AxiosRequest(verb: Verb, url: string, headers: map<string, Header>, body: Option<Json>)

  /** `error.response`: the status and data of a refused answer. */
  datatype ErrorResponse = ErrorResponse(status: int, data: Json)

  /** A rejected request: the answer, absent when none came, and the error's own message. */
  datatype AxiosError = AxiosError(response: Option<ErrorResponse>, message: string)

  /** What a request came to: an answer's `data`, or a rejection. */
  datatype Outcome = Fulfilled(data: Json) | Rejected(error: AxiosError)

  const UnexpectedError := "An unexpected error occurred"

  /** `error.response?.data?.message || error.response?.data || error.message || default`, made a
      text by `new Error(…)`. */
  function ErrorMessage(e: AxiosError): (m: string)
    ensures e.response.None? ==> m == (if e.message != "" then e.message else UnexpectedError)
  {
    var data := if e.response.Some? then Some(e.response.value.data) else None;
    var fromMessage := GetOpt(data, "message");
    if OptTruthy(fromMessage) then StringOf(fromMessage.value)
    else if OptTruthy(data) then StringOf(data.value)
    else if e.message != "" then e.message
    else UnexpectedError
  }

  /** The chain's order: a truthy `message` of the data wins; data without one is used whole,
      so an object body prints as "[object Object]"; empty data falls back to the error's
      message and then to the default. */
  lemma ErrorMessageOrder(status: int, data: Json, message: string)
    ensures data.JObj? && "message" in data.fields && data.fields["message"].JStr? && data.fields["message"].s != "" ==>
              ErrorMessage(AxiosError(Some(ErrorResponse(status, data)), message)) == data.fields["message"].s
    ensures data.JObj? && "message" !in data.fields ==>
              ErrorMessage(AxiosError(Some(ErrorResponse(status, data)), message)) == "[object Object]"
    ensures data.JStr? && data.s != "" ==> ErrorMessage(AxiosError(Some(ErrorResponse(status, data)), message)) == data.s
    ensures !JsonTruthy(data) && message != "" ==> ErrorMessage(AxiosError(Some(ErrorResponse(status, data)), message)) == message
    ensures !JsonTruthy(data) && message == "" ==> ErrorMessage(AxiosError(Some(ErrorResponse(status, data)), message)) == UnexpectedError
  {
  }

  /** The words each endpoint puts before the rethrown message. */
  function Prefix(e: Endpoint): (p: string)
    ensures |p| >= 2 && p[|p| - 2..] == ": "
  {
    match e
    case Login(_) => "Login failed: "
    case Register(_) => "Registration failed: "
    case ActiveMenus => "Failed to fetch active menus: "
    case AllMenus => "Failed to fetch all menus: "
    case MenuById(_) => "Failed to fetch menu: "
    case CreateMenu(_) => "Failed to create menu: "
    case UpdateMenu(_, _) => "Failed to update menu: "
    case DeleteMenu(_) => "Failed to delete menu: "
  }

  /** The prefixed message starts with the endpoint's words and gives back the message whole. */
  lemma PrefixRoundTrip(e: Endpoint, m: string)
    ensures StartsWith(Prefix(e) + m, Prefix(e)) && (Prefix(e) + m)[|Prefix(e)|..] == m
  {
    assert (Prefix(e) + m)[..|Prefix(e)|] == Prefix(e);
  }

  const MenuBase := "http://localhost:8080/api"

  class AxiosClient {
    /** The storage key the request interceptor reads. */
    const tokenKey: string
    /** The keys a 401 removes. */
    const teardownKeys: set<string>
    /** The base URL requests go to. */
    const base: string
    /** Whether the menu endpoints are offered besides login and register. */
    const menuCalls: bool
    /** The browser storage. */
    var storage: Storage
    /** How many page reloads have been asked for. */
    var reloads: nat
    /** The requests sent. */
    var sent: seq<AxiosRequest>

    /** The menu-management client: token in `token`; a 401 clears the legacy session keys and
        `userId`. */
    constructor ForMenus(st: Storage)
      ensures tokenKey == "token" && teardownKeys == {"token", "username", "role", "userId"}
      ensures base == MenuBase && menuCalls
      ensures storage == st && reloads == 0 && sent == []
    {
      tokenKey, teardownKeys, base, menuCalls := "token", {"token", "username", "role", "userId"}, MenuBase, true;
      storage, reloads, sent := st, 0, [];
    }

    /** The auth repository: token in `authToken`; a 401 clears `authToken` and `userData`; the
        base URL is the `${REACT_APP_API_URL}/api` template. */
    constructor ForAuth(env: Option<string>, st: Storage)
      ensures tokenKey == "authToken" && teardownKeys == {"authToken", "userData"}
      ensures base == ApiBaseUrl(env) && !menuCalls
      ensures storage == st && reloads == 0 && sent == []
    {
      tokenKey, teardownKeys, base, menuCalls := "authToken", {"authToken", "userData"}, ApiBaseUrl(env), false;
      storage, reloads, sent := st, 0, [];
    }

    /** The request interceptor: a truthy stored token adds `Authorization`, leaving the other
        headers as they were. */
    method Authorize(headers: map<string, Header>) returns (h: map<string, Header>)
      ensures ItemTruthy(GetItem(storage, tokenKey)) ==>
                h == headers["Authorization" := BearerOf(storage[tokenKey])]
      ensures !ItemTruthy(GetItem(storage, tokenKey)) ==> h == headers
    {
      var token := GetItem(storage, tokenKey);
      h := headers;
      if ItemTruthy(token) {
        h := h["Authorization" := BearerOf(token.value)];
      }
    }

    /** The response interceptor's failure path: a 401 removes the session keys and reloads the
        page; every failure is rethrown with the chosen message. */
    method Reject(e: AxiosError) returns (message: string)
      modifies this`storage, this`reloads
      ensures message == ErrorMessage(e)
      ensures e.response.Some? && e.response.value.status == 401 ==>
                storage == old(storage) - teardownKeys && reloads == old(reloads) + 1
      ensures !(e.response.Some? && e.response.value.status == 401) ==>
                storage == old(storage) && reloads == old(reloads)
    {
      if e.response.Some? && e.response.value.status == 401 {
        storage := storage - teardownKeys;
        reloads := reloads + 1;
      }
      message := ErrorMessage(e);
    }

    /** One endpoint: the request is sent with the interceptor's headers; the answer's data is
        returned, or the failure is rethrown with the endpoint's prefix. */
    method Call(e: Endpoint, outcome: Outcome) returns (r: Result<Json>)
      requires menuCalls || e.Login? || e.Register?
      modifies this`storage, this`reloads, this`sent
      ensures var headers := if ItemTruthy(GetItem(old(storage), tokenKey))
                             then DefaultHeaders["Authorization" := BearerOf(old(storage)[tokenKey])]
                             else DefaultHeaders;
              sent == old(sent) + [AxiosRequest(RouteOf(e).verb, base + RouteOf(e).path, headers, RouteOf(e).body)]
      ensures outcome.Fulfilled? ==> r == Ok(outcome.data) && storage == old(storage) && reloads == old(reloads)
      ensures outcome.Rejected? ==> r == Err(Prefix(e) + ErrorMessage(outcome.error))
      ensures outcome.Rejected? && outcome.error.response.Some? && outcome.error.response.value.status == 401 ==>
                storage == old(storage) - teardownKeys && reloads == old(reloads) + 1
      ensures !(outcome.Rejected? && outcome.error.response.Some? && outcome.error.response.value.status == 401) ==>
                storage == old(storage) && reloads == old(reloads)
    {
      var headers := Authorize(DefaultHeaders);
      var route := RouteOf(e);
      sent := sent + [AxiosRequest(route.verb, base + route.path, headers, route.body)];
      match outcome {
        case Fulfilled(data) =>
          r := Ok(data);
        case Rejected(error) =>
          var message := Reject(error);
          r := Err(Prefix(e) + message);
      }
    }
  }
}

/** The 401 teardown of each client against the session reads of the matching auth service. */
module GatewaySessionModel {
  import opened Wrappers
  import opened JsonData
  import opened Session
  import opened ApiEndpoints
  import opened AxiosGatewayModel
  import AuthServiceModel
  import LegacyAuthService

  function Unauthorized(message: string): Outcome {
    Rejected(AxiosError(Some(ErrorResponse(401, JObj(map["message" := JStr(message)]))), "Request failed with status code 401"))
  }

  /** A 401 on a menu call signs the legacy service out and asks for one reload; the error reads
      "Failed to fetch all menus: " and the server's message. */
  method MenuUnauthorizedSignsOut(st: Storage, message: string)
      returns (r: Result<Json>, signedIn: bool, user: Option<LegacyAuthService.StoredUser>, reloads: nat)
    requires message != ""
    ensures r == Err("Failed to fetch all menus: " + message)
    ensures !signedIn && user.None? && reloads == 1
  {
    var client := new AxiosClient.ForMenus(st);
    r := client.Call(AllMenus, Unauthorized(message));
    var legacy := new LegacyAuthService.LegacyAuth(client.storage);
    signedIn, user, reloads := legacy.IsAuthenticated(), legacy.GetCurrentUser(), client.reloads;
  }

  /** A 401 on the auth repository signs the auth service out: no token and no user document
      remain, whatever else is stored. */
  method AuthUnauthorizedSignsOut(env: Option<string>, st: Storage, message: string)
      returns (signedIn: bool, user: Json, admin: bool)
    ensures !signedIn && user == JNull && !admin
  {
    var client := new AxiosClient.ForAuth(env, st);
    var r := client.Call(Login(JNull), Unauthorized(message));
    signedIn := AuthServiceModel.IsAuthenticated(client.storage);
    user := AuthServiceModel.GetCurrentUser(client.storage);
    admin := AuthServiceModel.IsAdmin(client.storage);
  }

  /** An error body `{ message: text }` with a non-empty text gives that text. */
  lemma MessageText(status: int, text: string, message: string)
    requires text != ""
    ensures ErrorMessage(AxiosError(Some(ErrorResponse(status, JObj(map["message" := JStr(text)]))), message)) == text
  {
  }

  /** A refusal other than 401 (a wrong password answered with 400) keeps the session. */
  method BadRequestKeepsSession(st: Storage) returns (kept: Storage, r: Result<Json>)
    ensures kept == st && r == Err("Login failed: " + "Invalid credentials")
  {
    var client := new AxiosClient.ForAuth(None, st);
    var data := JObj(map["message" := JStr("Invalid credentials")]);
    var error := AxiosError(Some(ErrorResponse(400, data)), "Request failed with status code 400");
    MessageText(400, "Invalid credentials", error.message);
    r := client.Call(Login(JNull), Rejected(error));
    kept := client.storage;
  }
}
