/** The checkout state of a customer (`useCheckout`) and the admin's list of submitted checkouts
    (`useAdminCheckout`). Each awaited call is answered by an `Exchange` passed in; a handler
    runs to its end in one step. */
module CheckoutHook {
  import opened Wrappers
  import opened Text
  import opened Js
  import opened CheckoutApi

  /** The state cells of one `useCheckout` instance, with the id the hook writes into the
      shared signed-in user and the log of calls made. */
  datatype HookState = HookState(
    userId: Scalar,
    cartItems: seq<CheckoutItem>,
    cartId: Scalar,
    details: Option<CheckoutDetails>,
    error: string,
    success: string,
    sent: seq<Call>)

  /** The state right after the hook is created. */
  function InitialState(userId: Scalar): HookState {
    HookState(userId, [], Null, None, "", "", [])
  }

  /** The answers `initializeCheckout` may get, one per call it can make. */
  datatype InitReplies = InitReplies(
    me: Exchange<UserInfo>,
    lookup: Exchange<Option<CheckoutRef>>,
    cart: Exchange<seq<CheckoutItem>>,
    created: Exchange<CheckoutRef>,
    details: Exchange<CheckoutDetails>)

  const EmptyCartMessage := "Keranjang kosong atau tidak ditemukan"
  const InitFallbackMessage := "Terjadi kesalahan saat memuat checkout"

  /** `setError(err.message || 'Terjadi kesalahan saat memuat checkout')`. */
  function InitFailed(s: HookState, f: Failure): HookState {
    s.(error := if f.message != "" then f.message else InitFallbackMessage)
  }

  /** `initializeCheckout`. With no signed-in user nothing happens. Otherwise: fetch the user
      and copy its id; look up the user's checkout, treating a not-found failure as none; with
      a checkout, load the cart and the details and keep the first item's cart id; without,
      load the cart, refuse an empty one, keep its items and cart id, create a checkout and load
      its details. Any other failure ends the run with its message (or the fallback text). */
  function Initialize(s: HookState, hasUser: bool, r: InitReplies): HookState {
    if !hasUser then s
    else
      var s1 := s.(error := "", sent := s.sent + [GetMe]);
      match GetCurrentUser(r.me)
      case Thrown(f) => InitFailed(s1, f)
      case Value(me) =>
        var s2 := s1.(userId := me.id, sent := s1.sent + [FindByUser(me.id)]);
        match GetCheckoutByUserId(r.lookup)
        case Thrown(f) => if IsNotFound(f) then StartNew(s2, r) else InitFailed(s2, f)
        case Value(None) => StartNew(s2, r)
        case Value(Some(existing)) => ResumeExisting(s2, existing, r)
  }

  /** The branch for an existing checkout: nothing is stored unless both loads succeed; an empty
      cart makes `items[0].cartId` throw. */
  function ResumeExisting(s: HookState, existing: CheckoutRef, r: InitReplies): HookState {
    var s1 := s.(sent := s.sent + [GetCart(s.userId)]);
    match GetCartItems(r.cart)
    case Thrown(f) => InitFailed(s1, f)
    case Value(items) =>
      if items == [] then InitFailed(s1, Failure(PropertyOfNothing(Undefined, "cartId"), None))
      else
        var s2 := s1.(sent := s1.sent + [GetDetails(existing.id)]);
        match GetCheckoutDetails(r.details)
        case Thrown(f) => InitFailed(s2, f)
        case Value(d) => s2.(cartId := items[0].cartId, cartItems := items, details := Some(d))
  }

  /** The branch with no checkout yet: the items and the cart id are stored before the checkout
      is created, so they stay even when the creation fails. */
  function StartNew(s: HookState, r: InitReplies): HookState {
    var s1 := s.(sent := s.sent + [GetCart(s.userId)]);
    match GetCartItems(r.cart)
    case Thrown(f) => InitFailed(s1, f)
    case Value(items) =>
      if items == [] then s1.(error := EmptyCartMessage)
      else
        var cid := items[0].cartId;
        var s2 := s1.(cartItems := items, cartId := cid);
        if cid.Undefined? || cid.Null? then InitFailed(s2, Failure(PropertyOfNothing(cid, "toString"), None))
        else
          var s3 := s2.(sent := s2.sent + [Create(cid)]);
          match CreateCheckout(r.created)
          case Thrown(f) => InitFailed(s3, f)
          case Value(created) =>
            var s4 := s3.(sent := s3.sent + [GetDetails(created.id)]);
            match GetCheckoutDetails(r.details)
            case Thrown(f) => InitFailed(s4, f)
            case Value(d) => s4.(details := Some(d))
  }

  /** How many checkouts a call log creates. */
  function Creations(log: seq<Call>): nat {
    if log == [] then 0 else Creations(log[..|log| - 1]) + (if log[|log| - 1].Create? then 1 else 0)
  }

  lemma {:induction false} CreationsAppend(a: seq<Call>, b: seq<Call>)
    ensures Creations(a + b) == Creations(a) + Creations(b)
  {
    if b == [] {
      assert a + b == a;
    } else {
      assert (a + b)[..|a + b| - 1] == a + b[..|b| - 1];
      CreationsAppend(a, b[..|b| - 1]);
    }
  }

  /** Initialisation only ever appends to the call log. */
  lemma InitializeExtendsLog(s: HookState, hasUser: bool, r: InitReplies)
    ensures var t := Initialize(s, hasUser, r);
            |s.sent| <= |t.sent| && t.sent[..|s.sent|] == s.sent
  {
  }

  /** The lookup has answered "a checkout exists" (a success whose JSON is an object). */
  predicate FoundExisting(r: InitReplies) {
    GetCurrentUser(r.me).Value? && GetCheckoutByUserId(r.lookup) .Value? && GetCheckoutByUserId(r.lookup).value.Some?
  }

  /** The lookup says there is no checkout: `null`, or a failure the not-found test accepts. */
  predicate FoundNone(r: InitReplies) {
    && GetCurrentUser(r.me).Value?
    && var l := GetCheckoutByUserId(r.lookup);
       (l.Value? && l.value.None?) || (l.Thrown? && IsNotFound(l.failure))
  }

  /** Without a signed-in user initialisation changes nothing and calls nothing. */
  lemma InitializeWithoutUser(s: HookState, r: InitReplies)
    ensures Initialize(s, false, r) == s
  {
  }

  /** At most one checkout is created per run, and one is created exactly when the lookup found
      none, the cart answered with items and the first item has a cart id. */
  lemma InitializeCreatesAtMostOnce(s: HookState, hasUser: bool, r: InitReplies)
    ensures var t := Initialize(s, hasUser, r);
            Creations(t.sent) == Creations(s.sent) +
              (if hasUser && FoundNone(r) && CartAllowsCreate(r) then 1 else 0)
  {
    if hasUser {
      var s1 := s.(error := "", sent := s.sent + [GetMe]);
      CreationsPush(s.sent, GetMe);
      var me := GetCurrentUser(r.me);
      if me.Value? {
        var s2 := s1.(userId := me.value.id, sent := s1.sent + [FindByUser(me.value.id)]);
        CreationsPush(s1.sent, FindByUser(me.value.id));
        if FoundNone(r) {
          StartNewCreations(s2, r);
        } else if FoundExisting(r) {
          ResumeExistingCreations(s2, GetCheckoutByUserId(r.lookup).value.value, r);
        }
      }
    }
  }

  /** The cart answered with items whose first one has a cart id to create a checkout for. */
  predicate CartAllowsCreate(r: InitReplies) {
    && GetCartItems(r.cart).Value? && GetCartItems(r.cart).value != []
    && !GetCartItems(r.cart).value[0].cartId.Undefined? && !GetCartItems(r.cart).value[0].cartId.Null?
  }

  lemma CreationsPush(log: seq<Call>, c: Call)
    ensures Creations(log + [c]) == Creations(log) + (if c.Create? then 1 else 0)
  {
    assert (log + [c])[..|log|] == log;
  }

  lemma StartNewCreations(s: HookState, r: InitReplies)
    ensures Creations(StartNew(s, r).sent) == Creations(s.sent) + (if CartAllowsCreate(r) then 1 else 0)
  {
    var s1 := s.(sent := s.sent + [GetCart(s.userId)]);
    CreationsPush(s.sent, GetCart(s.userId));
    if CartAllowsCreate(r) {
      var cid := GetCartItems(r.cart).value[0].cartId;
      CreationsPush(s1.sent, Create(cid));
      var c := CreateCheckout(r.created);
      if c.Value? {
        CreationsPush(s1.sent + [Create(cid)], GetDetails(c.value.id));
      }
    }
  }

  lemma ResumeExistingCreations(s: HookState, existing: CheckoutRef, r: InitReplies)
    ensures Creations(ResumeExisting(s, existing, r).sent) == Creations(s.sent)
  {
    var s1 := s.(sent := s.sent + [GetCart(s.userId)]);
    CreationsPush(s.sent, GetCart(s.userId));
    CreationsPush(s1.sent, GetDetails(existing.id));
  }

  /** A refused lookup (any non-success status) leads exactly where a `null` answer does:
      every refusal reads as "no checkout yet". */
  lemma RefusedLookupMeansNoCheckout(s: HookState, r: InitReplies, status: int, text: string, data: Option<CheckoutRef>)
    requires !IsOk(status)
    ensures Initialize(s, true, r.(lookup := Answered(status, text, data))) ==
            Initialize(s, true, r.(lookup := Answered(200, "", None)))
  {
    LookupRefusalIsNotFound(Answered(status, text, data));
  }

  /** With a checkout found, the cart id comes from the first cart item, the items and details
      are those the server sent, and no checkout is created. */
  lemma ResumeUsesFirstItem(s: HookState, r: InitReplies)
    requires FoundExisting(r) && GetCartItems(r.cart).Value? && GetCartItems(r.cart).value != []
    requires GetCheckoutDetails(r.details).Value?
    ensures var t := Initialize(s, true, r);
            t.cartId == GetCartItems(r.cart).value[0].cartId && t.cartItems == GetCartItems(r.cart).value
            && t.details == Some(GetCheckoutDetails(r.details).value) && t.error == ""
            && t.sent == s.sent + [GetMe, FindByUser(r.me.data.id), GetCart(r.me.data.id),
                                   GetDetails(GetCheckoutByUserId(r.lookup).value.value.id)]
  {
  }

  /** With no checkout and an empty cart: the fixed message, and neither details nor items nor
      cart id change. */
  lemma EmptyCartRefused(s: HookState, r: InitReplies)
    requires FoundNone(r) && GetCartItems(r.cart) == Value([])
    ensures var t := Initialize(s, true, r);
            t.error == EmptyCartMessage && t.details == s.details && t.cartItems == s.cartItems
            && t.cartId == s.cartId && t.sent == s.sent + [GetMe, FindByUser(r.me.data.id), GetCart(r.me.data.id)]
  {
  }

  /** A failed creation leaves the new items and cart id stored with no details: the state is
      partly updated. */
  lemma FailedCreateKeepsCart(s: HookState, r: InitReplies)
    requires FoundNone(r) && GetCartItems(r.cart).Value? && GetCartItems(r.cart).value != []
    requires var c := GetCartItems(r.cart).value[0].cartId; !c.Undefined? && !c.Null?
    requires CreateCheckout(r.created).Thrown?
    ensures var t := Initialize(s, true, r);
            t.cartItems == GetCartItems(r.cart).value && t.cartId == GetCartItems(r.cart).value[0].cartId
            && t.details == s.details
            && t.error == (if CreateCheckout(r.created).failure.message != "" then CreateCheckout(r.created).failure.message
                           else InitFallbackMessage)
  {
  }

  /** The answers `updateItemQuantity` may get. */
  datatype UpdateReplies = UpdateReplies(update: Exchange<string>, cart: Exchange<seq<CheckoutItem>>,
                                         details: Exchange<CheckoutDetails>)

  /** `updateItemQuantity(itemId, delta)`: nothing unless a cart id and details are held (whether
      the checkout is submitted is not looked at); then the change is sent and the items and the
      details are both re-fetched and stored as the server gives them. A failure sets only the
      error, with no fallback text. */
  function UpdateStep(s: HookState, itemId: Scalar, delta: int, r: UpdateReplies): HookState {
    if !Truthy(s.cartId) || s.details.None? then s
    else
      var s1 := s.(sent := s.sent + [Call.UpdateQuantity(s.cartId, itemId, delta)]);
      match UpdateItemQuantity(r.update)
      case Thrown(f) => s1.(error := f.message)
      case Value(_) =>
        var s2 := s1.(sent := s1.sent + [GetCart(s.userId)]);
        match GetCartItems(r.cart)
        case Thrown(f) => s2.(error := f.message)
        case Value(items) =>
          var s3 := s2.(sent := s2.sent + [GetDetails(s.details.value.id)]);
          match GetCheckoutDetails(r.details)
          case Thrown(f) => s3.(error := f.message)
          case Value(d) => s3.(cartItems := items, details := Some(d), success := "Quantity berhasil diupdate")
  }

  /** The quantities shown after an update are whatever the server sends back: two updates with
      different deltas that get the same answers leave the same items and details. */
  lemma UpdateNeverComputesLocally(s: HookState, itemId: Scalar, d1: int, d2: int, r: UpdateReplies)
    ensures var t1 := UpdateStep(s, itemId, d1, r);
            var t2 := UpdateStep(s, itemId, d2, r);
            t1.cartItems == t2.cartItems && t1.details == t2.details && t1.error == t2.error
            && t1.success == t2.success
  {
  }

  /** The hook sends an update for a submitted checkout as readily as for an open one; only the
      view disables the buttons. */
  lemma UpdateIgnoresSubmitted(s: HookState, itemId: Scalar, delta: int, r: UpdateReplies)
    requires Truthy(s.cartId) && s.details.Some? && s.details.value.isSubmitted
    ensures UpdateStep(s, itemId, delta, r).sent[..|s.sent| + 1] ==
            s.sent + [Call.UpdateQuantity(s.cartId, itemId, delta)]
  {
  }

  /** The answers `submitCheckout` may get. */
  datatype SubmitReplies = SubmitReplies(submit: Exchange<CheckoutDetails>, details: Exchange<CheckoutDetails>)

  /** `submitCheckout`: nothing without details; otherwise submit, then re-fetch the details. */
  function SubmitStep(s: HookState, r: SubmitReplies): HookState {
    if s.details.None? then s
    else
      var id := s.details.value.id;
      var s1 := s.(sent := s.sent + [Submit(id)]);
      match SubmitCheckout(r.submit)
      case Thrown(f) => s1.(error := f.message)
      case Value(_) =>
        var s2 := s1.(sent := s1.sent + [GetDetails(id)]);
        match GetCheckoutDetails(r.details)
        case Thrown(f) => s2.(error := f.message)
        case Value(d) => s2.(details := Some(d), success := "Checkout berhasil disubmit! Menunggu proses admin.")
  }

  /** `cancelCheckout`: nothing without details or without the user's confirmation; on success
      the cart id, the details and the items are reset. */
  function CancelStep(s: HookState, confirmed: bool, r: Exchange<string>): HookState {
    if s.details.None? || !confirmed then s
    else
      var s1 := s.(sent := s.sent + [Cancel(s.details.value.id)]);
      match CancelCheckout(r)
      case Thrown(f) => s1.(error := f.message)
      case Value(_) => s1.(cartId := Null, details := None, cartItems := [], success := "Checkout berhasil dibatalkan")
  }

  /** A failure of the first call of an action changes only the error (and the log). */
  lemma FirstFailureOnlySetsError(s: HookState, itemId: Scalar, delta: int, u: UpdateReplies,
                                  sr: SubmitReplies, c: Exchange<string>)
    requires s.details.Some?
    ensures UpdateItemQuantity(u.update).Thrown? && Truthy(s.cartId) ==>
              UpdateStep(s, itemId, delta, u) ==
              s.(error := UpdateItemQuantity(u.update).failure.message,
                 sent := s.sent + [Call.UpdateQuantity(s.cartId, itemId, delta)])
    ensures SubmitCheckout(sr.submit).Thrown? ==>
              SubmitStep(s, sr) == s.(error := SubmitCheckout(sr.submit).failure.message,
                                      sent := s.sent + [Submit(s.details.value.id)])
    ensures CancelCheckout(c).Thrown? ==>
              CancelStep(s, true, c) == s.(error := CancelCheckout(c).failure.message,
                                           sent := s.sent + [Cancel(s.details.value.id)])
  {
  }

  /** Cancelling sends nothing, and changes nothing, unless details are held and the user
      confirms: no DELETE goes out without the confirmation. */
  lemma CancelNeedsConfirmation(s: HookState, confirmed: bool, r: Exchange<string>)
    ensures CancelStep(s, false, r) == s
    ensures s.details.None? ==> CancelStep(s, confirmed, r) == s
    ensures |CancelStep(s, confirmed, r).sent| > |s.sent| <==> s.details.Some? && confirmed
  {
  }

  /** A successful submit stores the details the server sends back after it, not a local copy:
      exactly the submit and the re-fetch are sent, and no other cell but the message changes. */
  lemma SubmitStoresRefetchedDetails(s: HookState, sr: SubmitReplies)
    requires s.details.Some? && SubmitCheckout(sr.submit).Value? && GetCheckoutDetails(sr.details).Value?
    ensures var id := s.details.value.id;
            SubmitStep(s, sr) == s.(details := Some(GetCheckoutDetails(sr.details).value),
                                    success := "Checkout berhasil disubmit! Menunggu proses admin.",
                                    sent := s.sent + [Submit(id), GetDetails(id)])
  {
  }

  /** A successful update stores exactly the items and the details the server sends back, after
      sending the change and both re-fetches; the cart id, the user and the error are kept. */
  lemma UpdateStoresServerState(s: HookState, itemId: Scalar, delta: int, u: UpdateReplies)
    requires Truthy(s.cartId) && s.details.Some?
    requires UpdateItemQuantity(u.update).Value? && GetCartItems(u.cart).Value? && GetCheckoutDetails(u.details).Value?
    ensures UpdateStep(s, itemId, delta, u) ==
            s.(cartItems := GetCartItems(u.cart).value, details := Some(GetCheckoutDetails(u.details).value),
               success := "Quantity berhasil diupdate",
               sent := s.sent + [Call.UpdateQuantity(s.cartId, itemId, delta), GetCart(s.userId),
                                 GetDetails(s.details.value.id)])
  {
  }

  /** A successful cancel leaves nothing to update, submit or cancel: every later action of
      the hook is a no-op until it is initialised again. */
  lemma CancelledHookIsInert(s: HookState, r: Exchange<string>, itemId: Scalar, delta: int,
                             u: UpdateReplies, sr: SubmitReplies, confirmed: bool, c: Exchange<string>)
    requires s.details.Some? && CancelCheckout(r).Value?
    ensures var t := CancelStep(s, true, r);
            t.cartId == Null && t.details.None? && t.cartItems == []
            && UpdateStep(t, itemId, delta, u) == t && SubmitStep(t, sr) == t
            && CancelStep(t, confirmed, c) == t
  {
  }

  /** One `useCheckout` instance. */
  class Checkout {
    var userId: Scalar
    var cartItems: seq<CheckoutItem>
    var cartId: Scalar
    var details: Option<CheckoutDetails>
    var error: string
    var success: string
    var sent: seq<Call>
    /** `hasInitialized.current`. */
    var hasInitialized: bool

    function State(): HookState
      reads this
    {
      HookState(userId, cartItems, cartId, details, error, success, sent)
    }

    /** A fresh instance; `userId` is the signed-in user's id as the auth state holds it. */
    constructor (userId: Scalar)
      ensures State() == InitialState(userId) && !hasInitialized
    {
      this.userId := userId;
      cartItems, cartId, details, error, success, sent := [], Null, None, "", "", [];
      hasInitialized := false;
    }

    method SetState(t: HookState)
      modifies this`userId, this`cartItems, this`cartId, this`details, this`error, this`success, this`sent
      ensures State() == t
    {
      userId, cartItems, cartId, details, error, success, sent :=
        t.userId, t.cartItems, t.cartId, t.details, t.error, t.success, t.sent;
    }

    /** `initializeCheckout()`, step by step. */
    method InitializeCheckout(hasUser: bool, r: InitReplies)
      modifies this`userId, this`cartItems, this`cartId, this`details, this`error, this`success, this`sent
      ensures State() == Initialize(old(State()), hasUser, r)
    {
      if !hasUser {
        return;
      }
      error := "";
      sent := sent + [GetMe];
      var me := GetCurrentUser(r.me);
      if me.Thrown? {
        SetState(InitFailed(State(), me.failure));
        return;
      }
      userId := me.value.id;
      sent := sent + [FindByUser(userId)];
      var lookup := GetCheckoutByUserId(r.lookup);
      var existing: Option<CheckoutRef> := None;
      if lookup.Thrown? {
        if !IsNotFound(lookup.failure) {
          SetState(InitFailed(State(), lookup.failure));
          return;
        }
      } else {
        existing := lookup.value;
      }
      if existing.Some? {
        SetState(ResumeExisting(State(), existing.value, r));
      } else {
        SetState(StartNew(State(), r));
      }
    }

    /** The auto-initialisation effect: runs `initializeCheckout` once per instance, the first
        time a user is present. */
    method AutoInitialize(hasUser: bool, r: InitReplies)
      modifies this`userId, this`cartItems, this`cartId, this`details, this`error, this`success, this`sent,
               this`hasInitialized
      ensures hasUser && !old(hasInitialized) ==> State() == Initialize(old(State()), true, r) && hasInitialized
      ensures !(hasUser && !old(hasInitialized)) ==> State() == old(State()) && hasInitialized == old(hasInitialized)
    {
      if hasUser && !hasInitialized {
        hasInitialized := true;
        InitializeCheckout(true, r);
      }
    }

    method UpdateItemQuantity(itemId: Scalar, delta: int, r: UpdateReplies)
      modifies this`userId, this`cartItems, this`cartId, this`details, this`error, this`success, this`sent
      ensures State() == UpdateStep(old(State()), itemId, delta, r)
    {
      SetState(UpdateStep(State(), itemId, delta, r));
    }

    method SubmitCheckout(r: SubmitReplies)
      modifies this`userId, this`cartItems, this`cartId, this`details, this`error, this`success, this`sent
      ensures State() == SubmitStep(old(State()), r)
    {
      SetState(SubmitStep(State(), r));
    }

    method CancelCheckout(confirmed: bool, r: Exchange<string>)
      modifies this`userId, this`cartItems, this`cartId, this`details, this`error, this`success, this`sent
      ensures State() == CancelStep(old(State()), confirmed, r)
    {
      SetState(CancelStep(State(), confirmed, r));
    }

    method ClearError()
      modifies this`error
      ensures error == ""
    {
      error := "";
    }

    method ClearSuccess()
      modifies this`success
      ensures success == ""
    {
      success := "";
    }
  }

  /** The checkout page and the customer view it renders each build their own instance, so on
      one page load each instance runs its own initialisation: with the same answers (no
      checkout yet, a non-empty cart) two checkouts are requested. */
  method TwoInstancesInitialiseTwice(r: InitReplies) returns (creations: nat)
    requires FoundNone(r) && CartAllowsCreate(r)
    ensures creations == 2
  {
    var page := new Checkout(Num(1));
    var view := new Checkout(Num(1));
    page.AutoInitialize(true, r);
    view.AutoInitialize(true, r);
    page.AutoInitialize(true, r);
    InitializeCreatesAtMostOnce(InitialState(Num(1)), true, r);
    creations := Creations(page.sent) + Creations(view.sent);
  }

  /** `useAdminCheckout`. */
  class AdminCheckout {
    var submitted: seq<CheckoutDetails>
    var error: string
    var success: string
    var sent: seq<Call>

    constructor ()
      ensures submitted == [] && error == "" && success == "" && sent == []
    {
      submitted, error, success, sent := [], "", "", [];
    }

    /** `fetchSubmittedCheckouts` (also the mount effect): the list on success; on failure a
        fixed message and the list kept. A success does not clear an earlier error. */
    method FetchSubmitted(r: Exchange<seq<CheckoutDetails>>)
      modifies this`submitted, this`error, this`sent
      ensures sent == old(sent) + [ListSubmitted]
      ensures GetSubmittedCheckouts(r).Value? ==> submitted == GetSubmittedCheckouts(r).value && error == old(error)
      ensures GetSubmittedCheckouts(r).Thrown? ==> submitted == old(submitted) && error == "Gagal memuat data checkout"
    {
      sent := sent + [ListSubmitted];
      var got := GetSubmittedCheckouts(r);
      if got.Value? {
        submitted := got.value;
      } else {
        error := "Gagal memuat data checkout";
      }
    }

    /** `processCheckout(id)`: nothing unless confirmed; on success the message and a re-list
        whose own failure shows the listing error, on failure only the error. */
    method ProcessCheckout(id: Scalar, confirmed: bool, r: Exchange<string>, list: Exchange<seq<CheckoutDetails>>)
      modifies this`submitted, this`error, this`success, this`sent
      ensures !confirmed ==> sent == old(sent) && submitted == old(submitted) && error == old(error) && success == old(success)
      ensures confirmed && CheckoutApi.ProcessCheckout(r).Thrown? ==>
                sent == old(sent) + [Process(id)] && error == CheckoutApi.ProcessCheckout(r).failure.message
                && submitted == old(submitted) && success == old(success)
      ensures confirmed && CheckoutApi.ProcessCheckout(r).Value? ==>
                sent == old(sent) + [Process(id), ListSubmitted] && success == "Checkout berhasil diproses dan dihapus"
                && (GetSubmittedCheckouts(list).Value? ==> submitted == GetSubmittedCheckouts(list).value && error == old(error))
                && (GetSubmittedCheckouts(list).Thrown? ==> submitted == old(submitted) && error == "Gagal memuat data checkout")
    {
      if !confirmed {
        return;
      }
      sent := sent + [Process(id)];
      var done := CheckoutApi.ProcessCheckout(r);
      if done.Thrown? {
        error := done.failure.message;
        return;
      }
      success := "Checkout berhasil diproses dan dihapus";
      FetchSubmitted(list);
    }
  }
}
