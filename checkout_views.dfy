/** One cart line of the checkout with its quantity buttons. */
module CartItemView {
  import opened Wrappers
  import opened Js
  import opened CheckoutApi

  /** The change a button press asks the hook for: `onUpdateQuantity(item.id, delta)`. */
  datatype QuantityChange = QuantityChange(itemId: Scalar, delta: int)

  /** `handleIncrement`: always one more. */
  function Increment(item: CheckoutItem): (r: QuantityChange)
    ensures r.itemId == item.id && item.quantity + r.delta == item.quantity + 1
  {
    QuantityChange(item.id, 1)
  }

  /** `handleDecrement`: one fewer, and only while more than one is held. */
  function Decrement(item: CheckoutItem): (r: Option<QuantityChange>)
    ensures r.Some? <==> item.quantity > 1
    ensures r.Some? ==> r.value.itemId == item.id && r.value.delta == -1
  {
    if item.quantity > 1 then Some(QuantityChange(item.id, -1)) else None
  }

  /** The minus button is disabled while the line is locked or holds one unit or fewer. */
  predicate DecrementDisabled(disabled: bool, item: CheckoutItem) {
    disabled || item.quantity <= 1
  }

  /** The plus button is disabled only while the line is locked. */
  predicate IncrementDisabled(disabled: bool) {
    disabled
  }

  /** No press the buttons allow asks for a quantity below one, and an enabled minus button
      always sends a request. */
  lemma ButtonsKeepQuantityPositive(disabled: bool, item: CheckoutItem)
    ensures !DecrementDisabled(disabled, item) ==> Decrement(item).Some?
    ensures Decrement(item).Some? ==> item.quantity + Decrement(item).value.delta >= 1
    ensures item.quantity >= 1 ==> item.quantity + Increment(item).delta >= 1
  {
  }
}

/** The customer's checkout view. It builds its own checkout state rather than reading the
    props it is given, so it is modelled over a `HookState` of its own. */
module UserCheckoutView {
  import opened Wrappers
  import opened Js
  import opened CheckoutApi
  import opened CheckoutHook

  /** The buttons under the total: Submit and Cancel (disabled while loading) before
      submission, the waiting banner after. */
  datatype Actions = SubmitAndCancel(disabled: bool) | WaitingBanner

  datatype Body =
    | DetailsPanel(items: seq<CheckoutItem>, itemsDisabled: bool, total: Option<real>, actions: Actions)
    | EmptyState
    | NoBody

  datatype Screen = Spinner | Page(errorShown: bool, successShown: bool, body: Body)

  /** The whole render decision of the view. */
  function Render(s: HookState, loading: bool): (r: Screen)
    ensures r.Spinner? <==> loading && s.details.None?
    ensures r.Page? ==> (r.errorShown <==> s.error != "") && (r.successShown <==> s.success != "")
    ensures r.Page? && s.details.Some? ==>
              r.body.DetailsPanel? && r.body.items == s.cartItems && r.body.total == s.details.value.totalPrice
              && (r.body.itemsDisabled <==> s.details.value.isSubmitted)
              && (r.body.actions.SubmitAndCancel? <==> !s.details.value.isSubmitted)
              && (r.body.actions.SubmitAndCancel? ==> (r.body.actions.disabled <==> loading))
    ensures r.Page? && r.body.EmptyState? <==> s.details.None? && !loading && s.error == ""
  {
    if loading && s.details.None? then Spinner
    else
      var body :=
        if s.details.Some? then
          var d := s.details.value;
          DetailsPanel(s.cartItems, d.isSubmitted, d.totalPrice,
                       if !d.isSubmitted then SubmitAndCancel(loading) else WaitingBanner)
        else if !loading && s.error == "" then EmptyState
        else NoBody;
      Page(s.error != "", s.success != "", body)
  }

  /** After a successful submit the items lock and only the banner remains, so the view offers
      no further quantity change, submit or cancel; the hook would still accept an update (see
      `CheckoutHook.UpdateIgnoresSubmitted`). */
  lemma SubmittedViewLocks(s: HookState, loading: bool)
    requires s.details.Some? && s.details.value.isSubmitted
    ensures Render(s, loading).Page?
    ensures Render(s, loading).body.itemsDisabled && Render(s, loading).body.actions == WaitingBanner
  {
  }
}

/** The checkout page: which view (customer or admin) it shows, the toggle between them, the
    back button and the summary panel beside the customer view. */
module CheckoutModule {
  import opened Wrappers
  import opened Js
  import opened CheckoutApi
  import opened CheckoutHook
  import CheckoutSummary

  datatype ViewMode = UserView | AdminView

  /** A navigation the page asks the router for. `Replace` keeps the path and gives the new
      query parameters. */
  datatype Navigation = Go(path: string) | Replace(params: map<string, string>)

  /** The view the role effect chooses: the admin view only for `?admin=true` and an ADMIN. */
  function ChosenView(adminParam: Option<string>, role: Option<string>): (v: ViewMode)
    ensures v == AdminView <==> adminParam == Some("true") && role == Some("ADMIN")
  {
    if adminParam == Some("true") && role == Some("ADMIN") then AdminView else UserView
  }

  /** The panel beside the customer view, chosen in this order. */
  datatype Panel =
    | LoadingPanel
    | ErrorPanel(message: string)
    | EmptyPanel
    | SummaryPanel(shown: CheckoutSummary.Shown)

  function SummaryPanelOf(s: HookState, loading: bool): (p: Panel)
    ensures p == LoadingPanel <==> loading && s.details.None?
    ensures p.ErrorPanel? <==> !loading && s.error != "" && s.details.None?
    ensures p.ErrorPanel? ==> p.message == s.error
    ensures p == EmptyPanel <==> !(s.details.None? && (loading || s.error != "")) && s.cartItems == []
    ensures p.SummaryPanel? ==>
              p.shown == CheckoutSummary.Render(s.cartItems, if s.details.Some? then s.details.value.totalPrice else None,
                                                |s.cartItems|, true)
  {
    if loading && s.details.None? then LoadingPanel
    else if s.error != "" && s.details.None? then ErrorPanel(s.error)
    else if |s.cartItems| == 0 then EmptyPanel
    else SummaryPanel(CheckoutSummary.Render(s.cartItems, if s.details.Some? then s.details.value.totalPrice else None,
                                             |s.cartItems|, true))
  }

  class CheckoutPage {
    var viewMode: ViewMode
    /** The page's query parameters. */
    var params: map<string, string>
    var navigations: seq<Navigation>

    constructor (params: map<string, string>)
      ensures viewMode == UserView && this.params == params && navigations == []
    {
      viewMode, this.params, navigations := UserView, params, [];
    }

    /** The role effect. `guard` is the value the effect tests first: it returns at once when it
        is truthy. Otherwise an unauthenticated visitor is sent to the login page, and anyone
        else gets the view `ChosenView` picks. */
    method RoleEffect(guard: bool, isAuthenticated: bool, role: Option<string>)
      modifies this`viewMode, this`navigations
      ensures guard ==> viewMode == old(viewMode) && navigations == old(navigations)
      ensures !guard && !isAuthenticated ==> viewMode == old(viewMode) && navigations == old(navigations) + [Go("/login")]
      ensures !guard && isAuthenticated ==>
                navigations == old(navigations)
                && viewMode == ChosenView(if "admin" in params then Some(params["admin"]) else None, role)
    {
      if guard {
        return;
      }
      if !isAuthenticated {
        navigations := navigations + [Go("/login")];
        return;
      }
      viewMode := ChosenView(if "admin" in params then Some(params["admin"]) else None, role);
    }

    /** `handleToggleView`: only for an ADMIN; flips the view and keeps `?admin=true` in step
        with it. */
    method ToggleView(role: Option<string>)
      modifies this`viewMode, this`params, this`navigations
      ensures role != Some("ADMIN") ==> viewMode == old(viewMode) && params == old(params) && navigations == old(navigations)
      ensures role == Some("ADMIN") ==>
                viewMode != old(viewMode)
                && (viewMode == AdminView ==> params == old(params)["admin" := "true"])
                && (viewMode == UserView ==> params == old(params) - {"admin"})
                && navigations == old(navigations) + [Replace(params)]
    {
      if role == Some("ADMIN") {
        viewMode := if viewMode == UserView then AdminView else UserView;
        if viewMode == AdminView {
          params := params["admin" := "true"];
        } else {
          params := params - {"admin"};
        }
        navigations := navigations + [Replace(params)];
      }
    }

    /** `handleGoBack`. */
    method GoBack()
      modifies this`navigations
      ensures navigations == old(navigations) + [Go(if viewMode == AdminView then "/admin/dashboard" else "/menu")]
    {
      navigations := navigations + [Go(if viewMode == AdminView then "/admin/dashboard" else "/menu")];
    }
  }

  /** Toggling twice restores the view, and the query parameters agree with the view after
      each toggle: after the second one `admin` is gone whatever it held before. */
  method ToggleTwice(params: map<string, string>) returns (first: ViewMode, second: ViewMode, finalParams: map<string, string>)
    ensures first == AdminView && second == UserView && finalParams == params - {"admin"}
  {
    var page := new CheckoutPage(params);
    page.ToggleView(Some("ADMIN"));
    first := page.viewMode;
    page.ToggleView(Some("ADMIN"));
    second, finalParams := page.viewMode, page.params;
    assert finalParams == params["admin" := "true"] - {"admin"};
  }

  /** As written the effect tests the module's imported `loading`, a component and so always
      truthy: an ADMIN opening `?admin=true` stays in the customer view, and a visitor who is
      not signed in is not redirected. */
  method RoleEffectAsWritten(isAuthenticated: bool) returns (view: ViewMode, redirected: bool)
    ensures view == UserView && !redirected
  {
    var page := new CheckoutPage(map["admin" := "true"]);
    page.RoleEffect(true, isAuthenticated, Some("ADMIN"));
    view, redirected := page.viewMode, page.navigations != [];
  }

  /** Guarded by the auth state's loading flag instead, once loading is over the ADMIN link
      opens the admin view and a visitor who is not signed in goes to the login page. */
  method RoleEffectCorrected(isAuthenticated: bool) returns (view: ViewMode, redirected: bool)
    ensures isAuthenticated ==> view == AdminView && !redirected
    ensures !isAuthenticated ==> view == UserView && redirected
  {
    var authLoading := false;
    var page := new CheckoutPage(map["admin" := "true"]);
    page.RoleEffect(authLoading, isAuthenticated, Some("ADMIN"));
    view, redirected := page.viewMode, page.navigations == [Go("/login")];
  }
}
