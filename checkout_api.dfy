/** The checkout service client: the headers every call carries, the request each call makes,
    and how each call turns the server's answer into a value or a thrown `Error`. The server is
    an oracle: each call is handed the `Exchange` it had with the server. */
module CheckoutApi {
  import opened Wrappers
  import opened Text
  import opened Js

  /** A menu entry as embedded in a cart item. */
  datatype MenuInfo = MenuInfo(name: string, price: real)

  /** A cart item as the cart service lists it. */
  datatype CheckoutItem = CheckoutItem(id: Scalar, cartId: Scalar, menu: MenuInfo, quantity: int)

  /** A checkout's details; `totalPrice` is absent when the server leaves it out. */
  datatype CheckoutDetails = CheckoutDetails(id: Scalar, isSubmitted: bool, totalPrice: Option<real>)

  /** The object a lookup or a create answers with; only its id is read. */
  datatype CheckoutRef = CheckoutRef(id: Scalar)

  /** The signed-in user as `/auth/me` answers; only its id is read. */
  datatype UserInfo = UserInfo(id: Scalar)

  /** The operations of the client, with the values they put in the request. */
  datatype Call =
    | GetMe
    | GetCart(userId: Scalar)
    | FindByUser(userId: Scalar)
    | Create(cartId: Scalar)
    | GetDetails(checkoutId: Scalar)
    | UpdateQuantity(cartId: Scalar, itemId: Scalar, delta: int)
    | Submit(checkoutId: Scalar)
    | Cancel(checkoutId: Scalar)
    | ListSubmitted
    | Process(checkoutId: Scalar)

  datatype Verb = GET | POST | PUT | DELETE

  /** A request on the wire; the JSON body is kept as its object's string fields. */
  datatype HttpRequest = HttpRequest(verb: Verb, url: string, headers: map<string, string>,
                                     body: Option<map<string, string>>)

  /** What a call got back: an answer with its status, its text and its decoded JSON, or a
      network failure (the rejected `fetch`) with its message. */
  datatype Exchange<T> = Answered(status: int, text: string, data: T) | Unreachable(message: string)

  /** A thrown `Error`: its message and its `status` property, if any. */
  datatype Failure = Failure(message: string, status: Option<int>)

  /** What an awaited call gives: its value, or what it threw. */
  datatype Outcome<T> = Value(value: T) | Thrown(failure: Failure)

  /** `response.ok`. */
  predicate IsOk(status: int) {
    200 <= status <= 299
  }

  /** The base URL: the template `${REACT_APP_API_URL}/api`, whose `||` fallback never applies
      because the template is never empty (an unset variable reads as `undefined`). */
  function ApiBaseUrl(env: Option<string>): (r: string)
    ensures r == env.GetOr("undefined") + "/api"
    ensures EndsWithApi(r)
  {
    var template := env.GetOr("undefined") + "/api";
    assert template[|template| - 4..] == "/api";
    if template != "" then template else "http://localhost:8080/api"
  }

  predicate EndsWithApi(s: string) {
    |s| >= 4 && s[|s| - 4..] == "/api"
  }

  /** `getAuthHeaders()`: JSON content type always, a bearer token only when one is stored. */
  function AuthHeaders(token: Option<string>): (h: map<string, string>)
    ensures "Content-Type" in h && h["Content-Type"] == "application/json"
    ensures "Authorization" in h <==> Present(token)
    ensures "Authorization" in h ==> h["Authorization"] == "Bearer " + token.value
    ensures h.Keys <= {"Content-Type", "Authorization"}
  {
    var base := map["Content-Type" := "application/json"];
    if Present(token) then base["Authorization" := "Bearer " + token.value] else base
  }

  /** The message of the `TypeError` thrown when a property is read from `undefined`/`null`. */
  function PropertyOfNothing(v: Scalar, property: string): string {
    "Cannot read properties of " + ToText(v) + " (reading '" + property + "')"
  }

  /** The request each call sends from base URL `base` with stored token `token`. Creating a
      checkout first runs `cartId.toString()`, which throws for `undefined`/`null` before any
      request is made. */
  function RequestFor(call: Call, base: string, token: Option<string>): (r: Result<HttpRequest>)
    ensures r.Err? <==> call.Create? && (call.cartId.Undefined? || call.cartId.Null?)
    ensures r.Ok? ==> r.value.headers == AuthHeaders(token) && StartsWith(r.value.url, base)
    ensures r.Ok? ==> (r.value.body.Some? <==> call.Create?)
    ensures r.Ok? && call.Create? ==> r.value.verb == POST && r.value.body == Some(map["cartId" := ToText(call.cartId)])
    ensures r.Ok? && call.UpdateQuantity? ==> r.value.verb == PUT
    ensures r.Ok? && (call.Cancel? || call.Process?) ==> r.value.verb == DELETE
    ensures r.Ok? && call.Submit? ==> r.value.verb == PUT
    ensures r.Ok? && (call.GetMe? || call.GetCart? || call.FindByUser? || call.GetDetails? || call.ListSubmitted?) ==>
              r.value.verb == GET
    ensures r.Ok? && call.GetMe? ==> r.value.url == base + "/auth/me"
    ensures r.Ok? && call.GetCart? ==> r.value.url == base + "/cart/" + ToText(call.userId) + "/items"
    ensures r.Ok? && call.FindByUser? ==> r.value.url == base + "/checkouts?userId=" + ToText(call.userId)
    ensures r.Ok? && call.Create? ==> r.value.url == base + "/checkouts"
    ensures r.Ok? && (call.GetDetails? || call.Cancel?) ==> r.value.url == base + "/checkouts/" + ToText(call.checkoutId)
    ensures r.Ok? && call.UpdateQuantity? ==>
              r.value.url == base + "/checkouts/" + ToText(call.cartId) + "/items/" + ToText(call.itemId)
                             + "?deltaQuantity=" + IntToString(call.delta)
    ensures r.Ok? && call.Submit? ==> r.value.url == base + "/checkouts/" + ToText(call.checkoutId) + "/submit"
    ensures r.Ok? && call.ListSubmitted? ==> r.value.url == base + "/checkouts/submitted"
    ensures r.Ok? && call.Process? ==> r.value.url == base + "/checkouts/" + ToText(call.checkoutId) + "/processed"
  {
    var h := AuthHeaders(token);
    match call
    case GetMe => Ok(HttpRequest(GET, base + "/auth/me", h, None))
    case GetCart(u) => Ok(HttpRequest(GET, base + "/cart/" + ToText(u) + "/items", h, None))
    case FindByUser(u) => Ok(HttpRequest(GET, base + "/checkouts?userId=" + ToText(u), h, None))
    case Create(c) =>
      if c.Undefined? || c.Null? then Err(PropertyOfNothing(c, "toString"))
      else Ok(HttpRequest(POST, base + "/checkouts", h, Some(map["cartId" := ToText(c)])))
    case GetDetails(id) => Ok(HttpRequest(GET, base + "/checkouts/" + ToText(id), h, None))
    case UpdateQuantity(c, item, d) =>
      Ok(HttpRequest(PUT, QuantityUrl(base, c, item, d), h, None))
    case Submit(id) => Ok(HttpRequest(PUT, base + "/checkouts/" + ToText(id) + "/submit", h, None))
    case Cancel(id) => Ok(HttpRequest(DELETE, base + "/checkouts/" + ToText(id), h, None))
    case ListSubmitted => Ok(HttpRequest(GET, base + "/checkouts/submitted", h, None))
    case Process(id) => Ok(HttpRequest(DELETE, base + "/checkouts/" + ToText(id) + "/processed", h, None))
  }

  /** `/checkouts/{cartId}/items/{itemId}?deltaQuantity={delta}`. */
  function QuantityUrl(base: string, cartId: Scalar, itemId: Scalar, delta: int): string {
    QuantityPath(base, cartId, itemId) + IntToString(delta)
  }

  function QuantityPath(base: string, cartId: Scalar, itemId: Scalar): string {
    CheckoutsPath(base) + ToText(cartId) + "/items/" + ToText(itemId) + "?deltaQuantity="
  }

  function CheckoutsPath(base: string): string {
    base + "/checkouts/"
  }

  /**
   * The quantity URL lies under the checkouts path, ends with the delta, and
   * the server reading the text after `?deltaQuantity=` as an integer gets
   * back exactly the signed delta the caller passed.
   */
  lemma QuantityUrlCarriesDelta(base: string, cartId: Scalar, itemId: Scalar, delta: int)
    ensures EndsWith(QuantityUrl(base, cartId, itemId, delta), IntToString(delta))
    ensures StartsWith(QuantityUrl(base, cartId, itemId, delta), CheckoutsPath(base))
    ensures |QuantityPath(base, cartId, itemId)| <= |QuantityUrl(base, cartId, itemId, delta)|
    ensures QuantityUrl(base, cartId, itemId, delta)[|QuantityPath(base, cartId, itemId)|..] == IntToString(delta)
    ensures ParseInt(QuantityUrl(base, cartId, itemId, delta)[|QuantityPath(base, cartId, itemId)|..]) == Some(delta)
  {
    var p0 := CheckoutsPath(base);
    var p1 := p0 + ToText(cartId);
    var p2 := p1 + "/items/";
    var p3 := p2 + ToText(itemId);
    var p4 := p3 + "?deltaQuantity=";
    ConcatEnds(p0, ToText(cartId));
    ConcatEnds(p1, "/items/");
    ConcatEnds(p2, ToText(itemId));
    ConcatEnds(p3, "?deltaQuantity=");
    ConcatEnds(p4, IntToString(delta));
    PrefixTrans(p2, p1, p0);
    PrefixTrans(p3, p2, p0);
    PrefixTrans(p4, p3, p0);
    PrefixTrans(p4 + IntToString(delta), p4, p0);
    assert (p4 + IntToString(delta))[|p4|..] == IntToString(delta);
    ParseIntOfIntToString(delta);
  }

  lemma PrefixTrans(s: string, p: string, q: string)
    requires StartsWith(s, p) && StartsWith(p, q)
    ensures StartsWith(s, q)
  {
    assert s[..|q|] == s[..|p|][..|q|];
  }

  predicate EndsWith(s: string, t: string) {
    |t| <= |s| && s[|s| - |t|..] == t
  }

  lemma ConcatEnds(a: string, b: string)
    ensures StartsWith(a + b, a) && EndsWith(a + b, b)
  {
    assert (a + b)[..|a|] == a;
    assert (a + b)[|a + b| - |b|..] == b;
  }

  /** A call whose failures carry a fixed message: `if (!response.ok) throw new Error(m)`. */
  function WithFixedMessage<T>(x: Exchange<T>, message: string): (r: Outcome<T>)
    ensures r.Value? <==> x.Answered? && IsOk(x.status)
    ensures r.Value? ==> r.value == x.data
    ensures x.Answered? && !IsOk(x.status) ==> r == Thrown(Failure(message, None))
    ensures x.Unreachable? ==> r == Thrown(Failure(x.message, None))
  {
    match x
    case Unreachable(m) => Thrown(Failure(m, None))
    case Answered(status, _, data) => if IsOk(status) then Value(data) else Thrown(Failure(message, None))
  }

  /** A call whose failures carry the response text: `throw new Error(await response.text())`. */
  function WithResponseText<T>(x: Exchange<T>): (r: Outcome<T>)
    ensures r.Value? <==> x.Answered? && IsOk(x.status)
    ensures r.Value? ==> r.value == x.data
    ensures x.Answered? && !IsOk(x.status) ==> r == Thrown(Failure(x.text, None))
    ensures x.Unreachable? ==> r == Thrown(Failure(x.message, None))
  {
    match x
    case Unreachable(m) => Thrown(Failure(m, None))
    case Answered(status, text, data) => if IsOk(status) then Value(data) else Thrown(Failure(text, None))
  }

  function GetCurrentUser(x: Exchange<UserInfo>): Outcome<UserInfo> {
    WithFixedMessage(x, "Failed to fetch user data")
  }

  function GetCartItems(x: Exchange<seq<CheckoutItem>>): Outcome<seq<CheckoutItem>> {
    WithFixedMessage(x, "Failed to fetch cart items")
  }

  function CreateCheckout(x: Exchange<CheckoutRef>): Outcome<CheckoutRef> {
    WithResponseText(x)
  }

  /** `getCheckoutByUserId`; the JSON answer may be `null` (`None`). */
  function GetCheckoutByUserId(x: Exchange<Option<CheckoutRef>>): Outcome<Option<CheckoutRef>> {
    WithFixedMessage(x, "Checkout not found")
  }

  function GetCheckoutDetails(x: Exchange<CheckoutDetails>): Outcome<CheckoutDetails> {
    WithFixedMessage(x, "Failed to fetch checkout details")
  }

  function UpdateItemQuantity(x: Exchange<string>): Outcome<string> {
    WithResponseText(x)
  }

  function SubmitCheckout(x: Exchange<CheckoutDetails>): Outcome<CheckoutDetails> {
    WithResponseText(x)
  }

  function CancelCheckout(x: Exchange<string>): Outcome<string> {
    WithResponseText(x)
  }

  function GetSubmittedCheckouts(x: Exchange<seq<CheckoutDetails>>): Outcome<seq<CheckoutDetails>> {
    WithFixedMessage(x, "Failed to fetch submitted checkouts")
  }

  function ProcessCheckout(x: Exchange<string>): Outcome<string> {
    WithResponseText(x)
  }

  /** The test `initializeCheckout` uses to tell "no checkout yet" from a real failure. */
  predicate IsNotFound(f: Failure) {
    Contains(f.message, "not found") || f.status == Some(404)
  }

  /** Every answer of the lookup that is not a success throws "Checkout not found", which the
      not-found test accepts: whatever the status, the server's refusal reads as "no checkout".
      Only a network failure whose message lacks "not found" gets through the test. */
  lemma LookupRefusalIsNotFound(x: Exchange<Option<CheckoutRef>>)
    ensures x.Answered? && !IsOk(x.status) ==>
              GetCheckoutByUserId(x).Thrown? && IsNotFound(GetCheckoutByUserId(x).failure)
              && GetCheckoutByUserId(x).failure.status.None?
    ensures x.Unreachable? ==>
              (IsNotFound(GetCheckoutByUserId(x).failure) <==> Contains(x.message, "not found"))
  {
    if x.Answered? && !IsOk(x.status) {
      var m := "Checkout not found";
      assert m[9..9 + |"not found"|] == "not found";
      assert OccursAt(m, "not found", 9);
    }
  }
}
