# Rizzerve restaurant client, modelled in Dafny

A model of the logic inside the Rizzerve React client (Advprog2025-B08/front_end_rizzerve): table (meja) management and the customer's table panel, the checkout flow, the menu cart, the add-to-cart and rating widgets, the menu forms and menu service, sign-in and sign-up, the auth context and route guards, and the four HTTP clients. The server, the browser storage, timers, `window.confirm` and navigation are not simulated. Every server answer is a parameter handed to the handler that awaits it (`Reply`, `Result`, `Exchange`, `Outcome`). A confirmation dialog is a boolean. The table screens' pending `setTimeout` callbacks (the reconnect and the recheck) are counted and fired explicitly by the model; the other timers are listed under "## Left out". `localStorage` is a map from keys to stored items. Each React event handler or effect is one atomic step.

Modules follow the source files:

- `MejaModel`, `MejaStream` (meja_model.dfy, meja_stream.dfy): the live table screen. It holds one `EventSource`, replaces the table list on each snapshot, reconnects with a linear back-off of 2000·n ms, and stops after five attempts. `LiveTablePanel` models both src/manage-meja/components/MejaManagement.jsx and its line-shifted copy src/components/MejaManagement.jsx, in which `token` and `username` are props rather than storage reads. The panel's constructor takes both directly, which covers the copy; `OpenFromStorage` builds the routed screen from storage; and `ChangeToken` is the re-run of the stream effect when `token` changes, which both copies list as the effect's dependency.
- `MejaPolling` (meja_polling.dfy): the older polling screen with its `refreshKey` counter.
- `UserTablePanel` (user_table_panel.dfy): the customer's "my table" lookup, joining and leaving a table.
- `StoredUser` (stored_user.dfy): the signed-in identity the screens and widgets read from browser storage as they render: the token, and the user's id or username from the stored user document. `MejaStream.OpenFromStorage`, `UserTablePanel.OpenFromStorage`, `AddToCartWidget.RenderFromStorage` and `MenuRatingWidget.RenderFromStorage` build each screen from it; the classes' constructors take the identity directly.
- `CheckoutApi` and `CheckoutHook` (checkout_api.dfy, checkout_hook.dfy): the checkout service's requests and errors, and the `useCheckout`/`useAdminCheckout` state machine with its one-shot initialisation latch.
- `CheckoutSummary`, `CartItemView`, `UserCheckoutView`, `CheckoutModule` (checkout_summary.dfy, checkout_views.dfy): totals, the render gates and the page's view choice.
- `MenuCart`, `AddToCartWidget`, `MenuRatingWidget` (menu_cart.dfy, add_to_cart.dfy, menu_rating.dfy): the cart context and the two menu widgets.
- `MenuFormModel`, `EditMenuFormModel`, `MenuServiceModel` (menu_forms.dfy, menu_service.dfy): the menu forms and the menu service's guards, normalisation and validation.
- `RegisterFormModel`, `LoginFormModel` (auth_forms.dfy): the sign-up and sign-in forms.
- `AuthServiceModel`, `LegacyAuthService`, `AuthContextModel`, `RoutesModel` (auth.dfy): both auth services, the context and the route guards.
- `ApiEndpoints`, `FetchClientModel`, `MejaApiModel`, `AxiosGatewayModel`, `GatewaySessionModel` (api_endpoints.dfy, fetch_client.dfy, meja_api.dfy, axios_gateway.dfy): the fetch client, the table API service, and the axios menu client and auth repository.
- `Wrappers`, `Text`, `Js`, `JsonData`, `Session` (wrappers.dfy, text.dfy, js.dfy, session.dfy): the JavaScript value rules these depend on. These are truthiness, `trim`, `parseInt`, `String(v)`, JSON values and storage items.

Requests actually sent are kept in a non-ghost `sent` log, so "no request is made" is a stated postcondition. Stateful screens are classes whose methods state their whole new state. Most are tied to a specification function (`State() == AfterX(old(State()), …)`), and the source's promises are proved as lemmas about those functions.

Behaviours of the code as written that a reader might not expect:

- The live screen's status is only ever "connected" or "disconnected": nothing marks a connection that is still opening.
- Unmounting does not cancel a pending reconnect.
- The checkout hook accepts quantity updates after submission; only the view disables them.
- The checkout page and the customer view each create their own hook instance, and so each has its own latch.
- The sign-up form calls a `register` that the auth context does not offer.

## Model

| member | source | states |
|---|---|---|
| MejaModel.SumQuantitiesAppend | src/manage-meja/components/MejaManagement.jsx:203-206 | the cart count of two concatenated item lists is the sum of their counts |
| MejaModel.CartItemsCountBounds | src/manage-meja/components/MejaManagement.jsx:203-206 | the cart count is 0 for a missing cart or item list, and at least the number of lines when every line holds at least one unit |
| MejaModel.AtLeastOnePerLine | src/manage-meja/components/MejaManagement.jsx:205 | a reduce over lines that each hold at least one unit is at least the number of lines |
| MejaModel.RowActionsConsistent | src/manage-meja/components/MejaManagement.jsx:348-374 | Assign and Complete are never offered together, an occupied table cannot be deleted, and Complete shows exactly on the signed-in user's own table |
| MejaStream.Backoff | src/manage-meja/components/MejaManagement.jsx:70-77 | the reconnect delays after n attempts are exactly 2000, 4000, ..., 2000·n ms |
| MejaStream.LiveTablePanel.AtMostOneLive | src/manage-meja/components/MejaManagement.jsx:34-43 | in every reachable state at most one EventSource is open |
| MejaStream.LiveTablePanel.ReconnectsSinceOpen | src/manage-meja/components/MejaManagement.jsx:64-80 | between two successful opens at most five reconnects are scheduled, the k-th after 2000·k ms |
| MejaStream.LiveTablePanel.constructor | src/manage-meja/components/MejaManagement.jsx:6-19 | the screen starts disconnected, with an empty list, an empty form, no source and no attempts |
| MejaStream.LiveTablePanel.Connect | src/manage-meja/components/MejaManagement.jsx:34-43 | the held source is closed before a fresh one is opened and held |
| MejaStream.LiveTablePanel.Mount | src/manage-meja/components/MejaManagement.jsx:24-25 | the mount effect opens one source |
| MejaStream.LiveTablePanel.OnOpen | src/manage-meja/components/MejaManagement.jsx:45-50 | an open makes the status connected, clears the error and resets the attempt counter to 0 |
| MejaStream.LiveTablePanel.OnMejaUpdate | src/manage-meja/components/MejaManagement.jsx:52-62 | a parsed snapshot replaces the whole list, stamps the time and clears the error; a parse failure only sets 'Error processing real-time updates' |
| MejaStream.LiveTablePanel.OnError | src/manage-meja/components/MejaManagement.jsx:64-81 | an error closes the source and disconnects; below 5 attempts the counter rises and one timer of 2000·counter ms is set, otherwise nothing is scheduled and the give-up message shows |
| MejaStream.LiveTablePanel.FireTimer | src/manage-meja/components/MejaManagement.jsx:74-77 | a firing reconnect timer is consumed and connects again, mounted or not |
| MejaStream.LiveTablePanel.Unmount | src/manage-meja/components/MejaManagement.jsx:27-31 | the cleanup closes the held source and leaves every pending timer set |
| MejaStream.LiveTablePanel.UnmountCancellingTimers | src/manage-meja/components/MejaManagement.jsx:27-31 | the cleanup that also clears the pending timers leaves none |
| MejaStream.LiveTablePanel.FetchMejas | src/manage-meja/components/MejaManagement.jsx:84-96 | a manual fetch stores the list on success, else 'Failed to fetch tables: ' plus the message and an empty list |
| MejaStream.LiveTablePanel.Change | src/manage-meja/components/MejaManagement.jsx:98-104 | typing stores the text in the form's number |
| MejaStream.LiveTablePanel.Submit | src/manage-meja/components/MejaManagement.jsx:106-134 | an empty number gives 'Table number is required' and no request; otherwise an update keyed by the selected table's number or a create is sent, and success resets the form and the selection |
| MejaStream.LiveTablePanel.Delete | src/manage-meja/components/MejaManagement.jsx:136-153 | nothing changes and nothing is sent unless confirmed; a confirmed delete reports success or the server's message |
| MejaStream.LiveTablePanel.Edit | src/manage-meja/components/MejaManagement.jsx:155-158 | editing selects the table and puts its number in the form |
| MejaStream.LiveTablePanel.Cancel | src/manage-meja/components/MejaManagement.jsx:160-163 | cancelling clears the selection and the form |
| MejaStream.LiveTablePanel.Assign | src/manage-meja/components/MejaManagement.jsx:165-178 | assigning sends the signed-in username for that table without confirmation and reports success or the message |
| MejaStream.LiveTablePanel.Complete | src/manage-meja/components/MejaManagement.jsx:180-197 | nothing is sent unless confirmed; a confirmed completion reports success or the message |
| MejaStream.StoredIdentity | src/manage-meja/components/MejaManagement.jsx:20-22 | read from browser storage, the screen renders exactly when a non-null user document is stored; a stored text that is not JSON throws the JSON syntax error and a missing record throws the `null` property error; a rendering screen holds the stored token and the document's username |
| MejaStream.OpenFromStorage | src/manage-meja/components/MejaManagement.jsx:20-22 | the routed screen is built, unmounted with nothing sent and with the stored identity, exactly when the storage reads succeed, and otherwise fails with their error |
| MejaStream.SignedInStorageOpens | src/manage-meja/components/MejaManagement.jsx:20-22 | after a sign-in stored a token text and a user document with a text username, the screen renders with exactly that token and username |
| MejaStream.LiveTablePanel.ChangeToken | src/manage-meja/components/MejaManagement.jsx:24-32 | a new token on a mounted screen closes the held source and opens exactly one new one; the same token, or an unmounted screen, leaves the connection as it was |
| MejaStream.UnmountLeavesReconnectArmed | src/manage-meja/components/MejaManagement.jsx:27-31 | after error, unmount and the timer firing, an unmounted screen still holds an open connection |
| MejaStream.UnmountCancellingLeavesNothing | src/manage-meja/components/MejaManagement.jsx:27-31 | with the timers cleared on unmount the same sequence leaves no timer and no open connection |
| MejaPolling.PollingTablePanel.constructor | src/components/MejaManagement.js:5-13 | the polling screen starts with an empty list and form, refresh counter 0, and a fetch due |
| MejaPolling.PollingTablePanel.FetchEffect | src/components/MejaManagement.js:15-31 | the effect fetches once per counter value: the list on success, else 'Failed to fetch tables: ' plus the message and an empty list |
| MejaPolling.PollingTablePanel.Change | src/components/MejaManagement.js:33-39 | typing stores the text in the form's number |
| MejaPolling.PollingTablePanel.Submit | src/components/MejaManagement.js:41-70 | an empty number gives an error and no request; otherwise an update keyed by the selected table's id or a create is sent; success resets the form and selection and raises the counter by exactly 1, failure leaves it |
| MejaPolling.PollingTablePanel.Delete | src/components/MejaManagement.js:72-90 | nothing is sent unless confirmed; a confirmed success raises the counter by 1, a failure sets the message and keeps the counter |
| MejaPolling.PollingTablePanel.Edit | src/components/MejaManagement.js:92-95 | editing selects the table and puts its number in the form |
| MejaPolling.PollingTablePanel.Cancel | src/components/MejaManagement.js:97-100 | cancelling clears the selection and the form |
| MejaPolling.PollingTablePanel.Assign | src/components/MejaManagement.js:102-116 | assigning by id sends the username; success raises the counter by 1, failure keeps it |
| MejaPolling.PollingTablePanel.Complete | src/components/MejaManagement.js:118-132 | completing sends at once with no confirmation; success raises the counter by 1, failure keeps it |
| MejaPolling.PollingAllowsDeletingOccupied | src/components/MejaManagement.js:205-208 | the polling screen enables Delete on an occupied table, which the streaming screen disables |
| MejaPolling.DeleteThenRefetch | src/components/MejaManagement.js:15-17 | a successful delete causes exactly one more fetch; a failed one causes none |
| UserTablePanel.FindSeated | src/manage-meja/components/UserTablePanel.jsx:25-26 | the lookup is empty exactly when no table holds the user, and otherwise returns a table that holds the user |
| UserTablePanel.FindSeatedUnique | src/manage-meja/components/UserTablePanel.jsx:25-26 | when the user sits at exactly one table, the lookup returns that table |
| UserTablePanel.TablePanel.constructor | src/manage-meja/components/UserTablePanel.jsx:6-15 | the panel starts with no table, an empty number and the status check pending |
| UserTablePanel.TablePanel.CheckStatus | src/manage-meja/components/UserTablePanel.jsx:21-34 | a status check stores the user's table, or none, and clears the error; a failure sets 'Failed to check your table status' and keeps the current table |
| UserTablePanel.TablePanel.ChangeNumber | src/manage-meja/components/UserTablePanel.jsx:7 | typing stores the table number text |
| UserTablePanel.TablePanel.Join | src/manage-meja/components/UserTablePanel.jsx:36-63 | an empty number gives 'Please enter a table number' and no request; otherwise parseInt of the number is sent with the username; success clears the input and arms one recheck, failure shows the message or 'Failed to join table' |
| UserTablePanel.TablePanel.Exit | src/manage-meja/components/UserTablePanel.jsx:65-88 | nothing is sent unless confirmed; a confirmed leave completes the order of the current table's number, and failure shows the message or 'Failed to leave table' |
| UserTablePanel.TablePanel.FireRecheck | src/manage-meja/components/UserTablePanel.jsx:54-57 | a firing recheck consumes its timer, clears the banner and checks the status again |
| UserTablePanel.OpenFromStorage | src/manage-meja/components/UserTablePanel.jsx:13-15 | the panel renders exactly when the stored user item is missing or a JSON document; any other stored text, the empty one included, throws the JSON syntax error; a rendering panel holds the stored token and the document's username (none for a missing item), and starts with no table and the status check pending |
| CheckoutApi.ApiBaseUrl | src/checkout/services/CheckoutApi.js:2 | the base URL is always the environment value (or "undefined") followed by "/api"; the localhost fallback is never taken |
| CheckoutApi.AuthHeaders | src/checkout/services/CheckoutApi.js:6-12 | the JSON content type is always present; 'Bearer ' plus the token is added exactly when a non-empty token is stored; no other header appears |
| CheckoutApi.RequestFor | src/checkout/services/CheckoutApi.js:15-142 | every call carries the auth headers; each call has its own verb and URL: GET /auth/me, GET /cart/{userId}/items, GET /checkouts?userId={userId}, POST /checkouts, GET /checkouts/{id}, PUT /checkouts/{cartId}/items/{itemId}?deltaQuantity={delta}, PUT /checkouts/{id}/submit, DELETE /checkouts/{id}, GET /checkouts/submitted and DELETE /checkouts/{id}/processed, each under the base URL with ids written by `String`; only a create carries a body, {cartId: String(cartId)}, and a create fails before any request when cartId is undefined or null |
| CheckoutApi.QuantityUrlCarriesDelta | src/checkout/services/CheckoutApi.js:73-74 | the quantity URL lies under /checkouts/ and ends with the delta, and the text after `?deltaQuantity=` parses back as an integer to exactly the signed delta passed |
| CheckoutApi.WithFixedMessage | src/checkout/services/CheckoutApi.js:20 | a call succeeds exactly on a 2xx answer, with its data; any other answer throws the fixed message with no status; a network failure is rethrown |
| CheckoutApi.WithResponseText | src/checkout/services/CheckoutApi.js:82-86 | a call succeeds exactly on a 2xx answer; any other answer throws the raw response text with no status |
| CheckoutApi.LookupRefusalIsNotFound | src/checkout/services/CheckoutApi.js:57 | every refused lookup throws 'Checkout not found' with no status, which the not-found test accepts; a network failure passes that test only if its message says "not found" |
| CheckoutHook.CreationsAppend | src/checkout/hooks/useCheckout.js:66 | the number of checkout creations in a joined call log is the sum over its parts |
| CheckoutHook.InitializeExtendsLog | src/checkout/hooks/useCheckout.js:16-78 | initialisation only appends calls to what was already sent |
| CheckoutHook.InitializeWithoutUser | src/checkout/hooks/useCheckout.js:17 | with no signed-in user initialisation changes no state and makes no call |
| CheckoutHook.InitializeCreatesAtMostOnce | src/checkout/hooks/useCheckout.js:16-78 | one run creates at most one checkout, and creates one exactly when the lookup found none, the cart has items and the first item has a cart id |
| CheckoutHook.StartNewCreations | src/checkout/hooks/useCheckout.js:54-70 | the no-checkout branch creates one checkout exactly when the cart allows it |
| CheckoutHook.ResumeExistingCreations | src/checkout/hooks/useCheckout.js:41-51 | the existing-checkout branch never creates a checkout |
| CheckoutHook.RefusedLookupMeansNoCheckout | src/checkout/hooks/useCheckout.js:31-39 | a lookup refused with any status leads to the same state as a lookup that found no checkout |
| CheckoutHook.ResumeUsesFirstItem | src/checkout/hooks/useCheckout.js:41-51 | with a checkout found, the cart id is the first item's, items and details are those sent by the server, and the calls are exactly me, lookup, cart and details |
| CheckoutHook.EmptyCartRefused | src/checkout/hooks/useCheckout.js:54-59 | with no checkout and an empty cart the error is 'Keranjang kosong atau tidak ditemukan' and details, items and cart id are unchanged |
| CheckoutHook.FailedCreateKeepsCart | src/checkout/hooks/useCheckout.js:61-74 | a failed creation leaves the new items and cart id stored with no details, and shows the failure's message or the fallback |
| CheckoutHook.UpdateNeverComputesLocally | src/checkout/hooks/useCheckout.js:83-102 | after an update, items and details are whatever the server returns, whatever the delta was |
| CheckoutHook.UpdateIgnoresSubmitted | src/checkout/hooks/useCheckout.js:84 | the hook sends a quantity update for a submitted checkout too |
| CheckoutHook.FirstFailureOnlySetsError | src/checkout/hooks/useCheckout.js:98-101 | when the first call of update, submit or cancel fails, only the error changes, besides the call log |
| CheckoutHook.CancelledHookIsInert | src/checkout/hooks/useCheckout.js:127-150 | a successful cancel resets the cart id, details and items to null, null and [], after which update, submit and cancel do nothing |
| CheckoutHook.CancelNeedsConfirmation | src/checkout/hooks/useCheckout.js:127-128 | without confirmation, or without details, cancelling changes nothing and sends no request; a request goes out exactly when details are held and the user confirms |
| CheckoutHook.SubmitStoresRefetchedDetails | src/checkout/hooks/useCheckout.js:105-116 | a successful submit sends exactly the submit and the details re-fetch, and stores the re-fetched details as the server sends them; only the success message changes besides |
| CheckoutHook.UpdateStoresServerState | src/checkout/hooks/useCheckout.js:81-95 | a successful update sends the change, the cart re-fetch and the details re-fetch, in that order, and stores exactly the items and details the server returns; cart id, user and error are kept |
| CheckoutHook.Checkout.constructor | src/checkout/hooks/useCheckout.js:9-14 | a new instance holds the initial state with its latch down |
| CheckoutHook.Checkout.SetState | src/checkout/hooks/useCheckout.js:9-14 | writing the state cells sets the state to the given value |
| CheckoutHook.Checkout.InitializeCheckout | src/checkout/hooks/useCheckout.js:16-78 | the method reaches the state the initialisation function says |
| CheckoutHook.Checkout.AutoInitialize | src/checkout/hooks/useCheckout.js:155-162 | the effect initialises only the first time a user is present, and raises the latch |
| CheckoutHook.Checkout.UpdateItemQuantity | src/checkout/hooks/useCheckout.js:83-102 | the method reaches the state the update step says |
| CheckoutHook.Checkout.SubmitCheckout | src/checkout/hooks/useCheckout.js:105-124 | the method reaches the state the submit step says |
| CheckoutHook.Checkout.CancelCheckout | src/checkout/hooks/useCheckout.js:127-150 | the method reaches the state the cancel step says |
| CheckoutHook.Checkout.ClearError | src/checkout/hooks/useCheckout.js:153 | the error is cleared |
| CheckoutHook.Checkout.ClearSuccess | src/checkout/hooks/useCheckout.js:154 | the success message is cleared |
| CheckoutHook.TwoInstancesInitialiseTwice | src/checkout/components/CheckoutModule.jsx:24 | two instances on one page each initialise once, so with no checkout yet two checkouts are requested |
| CheckoutHook.AdminCheckout.constructor | src/checkout/hooks/useCheckout.js:184-187 | the admin list starts empty with no messages |
| CheckoutHook.AdminCheckout.FetchSubmitted | src/checkout/hooks/useCheckout.js:190-201 | a fetch stores the list on success; a failure keeps the list and sets 'Gagal memuat data checkout' |
| CheckoutHook.AdminCheckout.ProcessCheckout | src/checkout/hooks/useCheckout.js:204-217 | nothing happens unless confirmed; a success shows the message and lists again, and a failed re-list keeps the list and shows the listing error; a failure only sets the error |
| CheckoutSummary.FinalTotal | src/checkout/components/CheckoutSummary.jsx:8-21 | the server's total is used when it is present and non-zero; an absent or zero total falls back to the calculated one |
| CheckoutSummary.SubtotalAppend | src/checkout/components/CheckoutSummary.jsx:14 | the subtotal of two joined lists is the sum of their subtotals |
| CheckoutSummary.CalculatedTotalBounds | src/checkout/components/CheckoutSummary.jsx:14-18 | with non-negative prices and quantities the subtotal is non-negative and the calculated total is at least the subtotal plus the 2000 service charge |
| CheckoutSummary.ItemLabelPlural | src/checkout/components/CheckoutSummary.jsx:29 | the item label ends in 's' exactly when the count is not 1 |
| CheckoutSummary.Render | src/checkout/components/CheckoutSummary.jsx:23-98 | compact mode shows only the count and the final total; the full form shows each line's price × quantity, the subtotal and the final total |
| CheckoutSummary.LineTotalsAddUp | src/checkout/components/CheckoutSummary.jsx:52-73 | the line totals shown add up to the subtotal shown |
| CheckoutSummary.LineTotalsSum | src/checkout/components/CheckoutSummary.jsx:14 | a list of line totals, one per item, sums to the subtotal |
| CartItemView.Increment | src/checkout/components/CartItem.jsx:7-9 | the plus button always asks for one more of that line |
| CartItemView.Decrement | src/checkout/components/CartItem.jsx:11-15 | the minus button asks for one fewer exactly when more than one is held, and otherwise asks nothing |
| CartItemView.ButtonsKeepQuantityPositive | src/checkout/components/CartItem.jsx:38-54 | an enabled minus button always sends a request, and no press asks for a quantity below 1 |
| UserCheckoutView.Render | src/checkout/components/UserCheckoutView.jsx:23-130 | the spinner shows exactly while loading with no details; item controls are disabled exactly when submitted; Submit and Cancel show exactly before submission; the total is the server's; the empty state shows exactly with no details, no loading and no error |
| UserCheckoutView.SubmittedViewLocks | src/checkout/components/UserCheckoutView.jsx:77-118 | once submitted, items are locked and only the waiting banner is offered |
| CheckoutModule.ChosenView | src/checkout/components/CheckoutModule.jsx:41-48 | the admin view is chosen exactly for ?admin=true and the ADMIN role |
| CheckoutModule.SummaryPanelOf | src/checkout/components/CheckoutModule.jsx:214-230 | the panel is, in priority order, Loading while loading without details, Error with the message when failed without details, Empty with no items, else the full summary of the items and the server's total |
| CheckoutModule.CheckoutPage.constructor | src/checkout/components/CheckoutModule.jsx:20 | the page starts in the customer view |
| CheckoutModule.CheckoutPage.RoleEffect | src/checkout/components/CheckoutModule.jsx:30-49 | a truthy guard exits at once; otherwise an unauthenticated visitor goes to /login and anyone else gets the chosen view |
| CheckoutModule.CheckoutPage.ToggleView | src/checkout/components/CheckoutModule.jsx:52-66 | non-admins change nothing; for an ADMIN the view flips, admin=true is set or deleted to match, and the URL is replaced |
| CheckoutModule.CheckoutPage.GoBack | src/checkout/components/CheckoutModule.jsx:69-75 | back goes to /admin/dashboard in the admin view and to /menu otherwise |
| CheckoutModule.ToggleTwice | src/checkout/components/CheckoutModule.jsx:52-66 | two toggles give the admin view and then the customer view, and leave no admin parameter |
| CheckoutModule.RoleEffectAsWritten | src/checkout/components/CheckoutModule.jsx:12-31 | with the imported component as guard, an ADMIN at ?admin=true stays in the customer view and nobody is redirected |
| CheckoutModule.RoleEffectCorrected | src/checkout/components/CheckoutModule.jsx:31-48 | guarded by a finished auth loading flag, the ADMIN gets the admin view and an unauthenticated visitor is sent to /login |
| MenuCart.Bump | src/manage-menu/contexts/MenuContext.js:21-25 | the map keeps the length and raises by one the quantity of exactly the entries with that id |
| MenuCart.SetQuantity | src/manage-menu/contexts/MenuContext.js:41-45 | the map keeps the length and sets the quantity of exactly the entries with that id |
| MenuCart.Add | src/manage-menu/contexts/MenuContext.js:17-29 | an item already in the cart gets one more, in place; a new one is appended with quantity 1 |
| MenuCart.Remove | src/manage-menu/contexts/MenuContext.js:31-33 | no entry with that id survives and the cart does not grow |
| MenuCart.RemoveMembers | src/manage-menu/contexts/MenuContext.js:32 | an entry survives a removal exactly when it was in the cart with another id |
| MenuCart.UpdateQuantity | src/manage-menu/contexts/MenuContext.js:35-46 | a quantity of 0 or less removes the entry; a positive one sets it |
| MenuCart.Clear | src/manage-menu/contexts/MenuContext.js:48-50 | clearing gives the empty cart, which satisfies the invariant |
| MenuCart.LineBump | src/manage-menu/contexts/MenuContext.js:52 | one more unit adds the item's price once to its line |
| MenuCart.RemoveAppend | src/manage-menu/contexts/MenuContext.js:32 | removal distributes over joined carts |
| MenuCart.RemoveAbsent | src/manage-menu/contexts/MenuContext.js:32 | removing an id the cart lacks leaves the cart unchanged |
| MenuCart.TotalAppend | src/manage-menu/contexts/MenuContext.js:52 | the total of joined carts is the sum of their totals |
| MenuCart.AddValid | src/manage-menu/contexts/MenuContext.js:17-29 | adding keeps ids unique and every quantity at least 1 |
| MenuCart.RemoveValid | src/manage-menu/contexts/MenuContext.js:31-33 | removing keeps ids unique and every quantity at least 1 |
| MenuCart.UpdateQuantityValid | src/manage-menu/contexts/MenuContext.js:35-46 | any update, with any quantity, keeps ids unique and every quantity at least 1 |
| MenuCart.AddTotal | src/manage-menu/contexts/MenuContext.js:17-29 | adding an item raises the total by exactly its price |
| MenuCart.BumpTotal | src/manage-menu/contexts/MenuContext.js:21-25 | bumping an id held once raises the total by that entry's price |
| MenuCart.BumpAbsent | src/manage-menu/contexts/MenuContext.js:21-25 | bumping an id the cart lacks leaves it unchanged |
| MenuCart.UpdateQuantityIdentities | src/manage-menu/contexts/MenuContext.js:35-46 | setting an entry's own quantity changes nothing, and setting 0 is removal |
| AddToCartWidget.LooseEqualsNumberText | src/manage-menu/components/AddToCart.jsx:20 | under loose equality a numeric menu id equals its decimal text, in either order |
| AddToCartWidget.InitialQuantity | src/manage-menu/components/AddToCart.jsx:19-21 | the quantity is 0 when no server line loosely matches the menu id, and otherwise that of the first line that does |
| AddToCartWidget.AddToCart.constructor | src/manage-menu/components/AddToCart.jsx:5-12 | the widget starts at quantity 0 with no error |
| AddToCartWidget.AddToCart.FetchEffect | src/manage-menu/components/AddToCart.jsx:14-28 | with no menu id, user or token nothing is fetched; otherwise the quantity is the initial quantity of the answer, and a failed fetch changes nothing |
| AddToCartWidget.AddToCart.Add | src/manage-menu/components/AddToCart.jsx:30-49 | without token or user, 'Please login to add items to cart' and no request; a successful add sets quantity 1 and notifies the parent once when it passed a callback; a failure sets the fixed message and keeps the quantity |
| AddToCartWidget.AddToCart.Remove | src/manage-menu/components/AddToCart.jsx:76-92 | without token or user nothing happens; a success sets quantity 0 and notifies the parent when it passed a callback; a failure sets the fixed message and keeps the quantity |
| AddToCartWidget.AddToCart.ChangeQuantity | src/manage-menu/components/AddToCart.jsx:51-74 | a step to 0 or below is a removal; otherwise the change is sent and a success sets quantity plus change and notifies the parent when it passed a callback; a failure keeps the quantity; a quantity never goes negative |
| AddToCartWidget.AddToCart.ClearError | src/manage-menu/components/AddToCart.jsx:107 | "Try again" only clears the error |
| AddToCartWidget.AddToCart.Shown | src/manage-menu/components/AddToCart.jsx:94-150 | without a token only the login hint shows; the add button shows exactly with no error at quantity 0; the stepper shows the quantity and price × quantity |
| AddToCartWidget.StepDownFromOne | src/manage-menu/components/AddToCart.jsx:54-58 | stepping down from 1 removes the item and the widget returns to the add button |
| AddToCartWidget.RenderFromStorage | src/manage-menu/components/AddToCart.jsx:5-12 | the widget renders exactly when the stored user item is missing, empty or a JSON document, else it throws the JSON syntax error; a rendering widget holds the stored token and `userData?.userId \|\| userData?.id`, at quantity 0 with no error and nothing sent |
| MenuRatingWidget.FilledStars | src/manage-menu/components/MenuRating.jsx:122-126 | of n stars exactly (hoveredStar &#124;&#124; userRating), clamped to 0..n, are filled |
| MenuRatingWidget.FilledIsPrefix | src/manage-menu/components/MenuRating.jsx:125 | a filled star has every lower star filled |
| MenuRatingWidget.MenuRating.constructor | src/manage-menu/components/MenuRating.jsx:12-20 | the widget starts with average 0, rating 0, no rating id and no hover |
| MenuRatingWidget.MenuRating.RefreshAverage | src/manage-menu/components/MenuRating.jsx:50-57 | a refresh stores the average or 0, and a failure keeps the old one |
| MenuRatingWidget.MenuRating.Resync | src/manage-menu/components/MenuRating.jsx:85-96 | reading back adopts the stored rating's id and value, or null and 0 when none exists |
| MenuRatingWidget.MenuRating.FetchEffect | src/manage-menu/components/MenuRating.jsx:22-48 | with no menu id nothing is fetched; otherwise the average is fetched and shown as `average || 0`, then, when signed in, the user's stored rating is adopted with its id, or null and 0 when there is none, and a failed rating read keeps the held rating; a failed average ends the effect with nothing changed |
| MenuRatingWidget.MenuRating.StarClick | src/manage-menu/components/MenuRating.jsx:59-100 | ignored while loading or signed out; a held rating id is updated, otherwise a rating is created and the id read back is adopted; on success the rating is the clicked value and the average is fetched again; on failure the stored rating is read back, and if that read fails too the id and rating stay as they were; the whole request log of each path is stated |
| MenuRatingWidget.MenuRating.DeleteOwnRating | src/manage-menu/components/MenuRating.jsx:102-120 | needs token, user, rating id and confirmation; success resets the id to null and the rating to 0 and refreshes the average to the answered `average || 0`, kept when that fetch fails; failure changes nothing |
| MenuRatingWidget.MenuRating.Hover | src/manage-menu/components/MenuRating.jsx:133 | hovering highlights up to that star unless loading |
| MenuRatingWidget.MenuRating.Leave | src/manage-menu/components/MenuRating.jsx:134 | leaving clears the highlight unless loading |
| MenuRatingWidget.RateThenDelete | src/manage-menu/components/MenuRating.jsx:59-120 | rating four stars and then deleting leaves no star filled |
| MenuRatingWidget.RenderFromStorage | src/manage-menu/components/MenuRating.jsx:12-20 | the widget renders exactly when the stored user item is missing, empty or a JSON document, else it throws the JSON syntax error; a rendering widget holds the stored token and `userData?.userId \|\| userData?.id`, with average 0, rating 0, no rating id and nothing sent |
| MenuFormModel.Message | src/manage-menu/forms/MenuForm.jsx:21-41 | every validation problem has a non-empty message |
| MenuFormModel.Messages | src/manage-menu/forms/MenuForm.jsx:53 | the joined error lists exactly one message per problem, in the problems' order |
| MenuFormModel.InitialData | src/manage-menu/forms/MenuForm.jsx:7-14 | a new form starts blank with price 0, order 0 and active; an existing menu's missing name, description or icon becomes empty text, a missing price 0 and a missing display order 0, present values are kept, and an undefined `isActive` becomes true |
| MenuFormModel.Processed | src/manage-menu/forms/MenuForm.jsx:60-68 | the submitted payload has trimmed texts, the display order parsed as an integer or 0, and `isActive` coerced to a boolean |
| MenuFormModel.TrimNoLonger | src/manage-menu/forms/MenuForm.jsx:62-65 | trimming never lengthens a text |
| MenuFormModel.ProcessedOfAcceptable | src/manage-menu/forms/MenuForm.jsx:51-68 | a payload built from a form that passed validation has a non-empty name of at most 100 characters, a description of at most 500, a price within bounds and the non-negative display order it was given |
| MenuFormModel.ProblemsMeaning | src/manage-menu/forms/MenuForm.jsx:18-44 | each problem is reported exactly when its condition holds (blank name; an over-long name only when not blank; description over 500; negative price; price over 999999999; unparsable or negative order), no problem means acceptable, and at most four are reported |
| MenuFormModel.MenuForm.constructor | src/manage-menu/forms/MenuForm.jsx:7-16 | the form holds the initial data, no error and nothing submitted |
| MenuFormModel.MenuForm.Validate | src/manage-menu/forms/MenuForm.jsx:18-44 | validation returns the problems of the current data |
| MenuFormModel.MenuForm.Submit | src/manage-menu/forms/MenuForm.jsx:46-77 | invalid data submits nothing and shows every problem's message joined with ", "; valid data submits the processed payload once; a failure shows its message or the fixed fallback, success clears the error |
| MenuFormModel.MenuForm.ChangePrice | src/manage-menu/forms/MenuForm.jsx:79-96 | an empty or unparsable price becomes 0, any other the parsed number; the error is cleared |
| MenuFormModel.MenuForm.ChangeText | src/manage-menu/forms/MenuForm.jsx:79-96 | typing into a text field replaces that field only and clears the error |
| MenuFormModel.MenuForm.ChangeDisplayOrder | src/manage-menu/forms/MenuForm.jsx:79-96 | the display order keeps the typed text, parsed only at validation; the error is cleared |
| MenuFormModel.MenuForm.ChangeActive | src/manage-menu/forms/MenuForm.jsx:79-96 | the checkbox sets `isActive` to its checked state and clears the error |
| MenuFormModel.EmptyPriceIsZero | src/manage-menu/forms/MenuForm.jsx:84-86 | a cleared or unparsable price input is stored as 0 and so never raises the price error |
| EditMenuFormModel.Populated | src/manage-menu/forms/EditMenuForm.jsx:20-26 | an edited menu's falsy texts become empty, a missing order 0 and an undefined `isActive` true |
| EditMenuFormModel.EditMenuForm.constructor | src/manage-menu/forms/EditMenuForm.jsx:5-12 | the form starts blank and active with no errors and nothing submitted |
| EditMenuFormModel.EditMenuForm.Populate | src/manage-menu/forms/EditMenuForm.jsx:18-28 | a given menu replaces the data, no menu leaves it as it was |
| EditMenuFormModel.EditMenuForm.Validate | src/manage-menu/forms/EditMenuForm.jsx:30-53 | the error map has a field exactly when that field fails its rule, with that rule's message, and the form is valid exactly when the map is empty |
| EditMenuFormModel.EditMenuForm.Change | src/manage-menu/forms/EditMenuForm.jsx:55-69 | an input replaces its own field (a number input as a number, a checkbox as its state) and blanks only that field's error when it had one |
| EditMenuFormModel.EditMenuForm.Submit | src/manage-menu/forms/EditMenuForm.jsx:71-86 | valid data is submitted as it stands, with no errors; invalid data submits nothing and shows exactly the messages of the fields whose rules fail (blank name or description, blank or badly prefixed URL, negative display order) |
| EditMenuFormModel.FixNameKeepsOtherErrors | src/manage-menu/forms/EditMenuForm.jsx:62-68 | fixing the name clears its message while the URL error stays |
| MenuServiceModel.ListOrEmpty | src/manage-menu/services/MenuService.js:9 | an answer that is an array is returned whole; anything else becomes the empty list |
| MenuServiceModel.ListMenus | src/manage-menu/services/MenuService.js:6-24 | the active or the full list is asked for; a failure is rethrown unchanged and an answer is normalised to a list |
| MenuServiceModel.Processed | src/manage-menu/services/MenuService.js:46-50 | the payload keeps every field but the display order, which becomes its parsed integer or 0, and `isActive`, which becomes a boolean |
| MenuServiceModel.ProcessedIdempotent | src/manage-menu/services/MenuService.js:46-50 | normalising an already normalised payload changes nothing |
| MenuServiceModel.GetMenuById | src/manage-menu/services/MenuService.js:26-38 | a falsy id throws "Menu ID is required" without calling the API; otherwise the API's answer or failure is passed through |
| MenuServiceModel.CreateMenuWith | src/manage-menu/services/MenuService.js:40-58 | missing data or a falsy name throws "Menu name is required" without calling the API; otherwise the normalised payload is sent and the answer passed through |
| MenuServiceModel.UpdateMenuWith | src/manage-menu/services/MenuService.js:60-82 | the id is checked before the name, each refusal throwing its message with no call; otherwise the normalised payload is sent for that id |
| MenuServiceModel.DeleteMenuWith | src/manage-menu/services/MenuService.js:84-96 | a falsy id throws without calling the API; otherwise the deletion's answer or failure is passed through |
| MenuServiceModel.GuardedCallsOnly | src/manage-menu/services/MenuService.js:40-82 | every create or update that reaches the API carries a truthy id and named, normalised data |
| MenuServiceModel.ProblemsMeaning | src/manage-menu/services/MenuService.js:99-129 | each message is reported exactly when its rule fails (missing or blank name, name over 100, a present URL that neither parses nor is relative, a truthy order that does not parse), none means every rule holds, at most four |
| MenuServiceModel.ValidateMenuData | src/manage-menu/services/MenuService.js:99-119 | the messages pushed one by one are the problems of the data, in order |
| MenuServiceModel.BlankLongNameGetsBoth | src/manage-menu/services/MenuService.js:102-108 | a name of 101 blanks is reported both as missing and as too long, since the length check does not trim |
| AuthServiceModel.UserOf | src/auth/services/AuthService.js:14-18 | the user object holds at most the id, username and role of the answer, each exactly as the answer has it |
| AuthServiceModel.Login | src/auth/services/AuthService.js:8-24 | a repository failure is rethrown unchanged, a `null` answer throws, any other answer yields its token and its user object |
| AuthServiceModel.GetCurrentUser | src/auth/services/AuthService.js:36-44 | nothing truthy stored, or a stored text that does not parse, reads as `null`; a stored document is returned |
| AuthServiceModel.GetToken | src/auth/services/AuthService.js:66-73 | the token is present exactly when `authToken` is stored, and is the stored item |
| AuthServiceModel.AdminMeansStoredAdminDocument | src/auth/services/AuthService.js:56-64 | being an admin holds exactly when a stored user document has the role text "ADMIN", independent of the token |
| AuthServiceModel.LoginUserFields | src/auth/services/AuthService.js:12-19 | a login answer's user object keeps the answer's role and never carries the token |
| LegacyAuthService.LegacyAuth.constructor | src/Services/AuthService.js:2-4 | the service works on the given storage |
| LegacyAuthService.LegacyAuth.Login | src/Services/AuthService.js:6-18 | failures are rethrown with "Login failed: " and leave storage alone; an answer without a truthy token is returned and stores nothing; one with a token writes exactly the three session keys as texts |
| LegacyAuthService.LegacyAuth.Register | src/Services/AuthService.js:20-26 | the answer is passed through; a failure is rethrown with "Registration failed: " |
| LegacyAuthService.LegacyAuth.Logout | src/Services/AuthService.js:28-32 | exactly the three session keys are removed |
| LegacyAuthService.LegacyAuth.GetCurrentUser | src/Services/AuthService.js:34-43 | a user is returned exactly when all three keys are truthy, and it holds the stored values |
| LegacyAuthService.LoginThenLogout | src/Services/AuthService.js:6-47 | login with a non-empty token, username and role reads back those three; after logout nothing is read back and nobody is signed in |
| LegacyAuthService.LoginWithoutUsername | src/Services/AuthService.js:9-12 | an answer with a token but no username or role still signs in, storing the texts "undefined" |
| AuthContextModel.OffersNoRegister | src/auth/contexts/AuthContext.js:53-63 | the context value offers `login` but no `register` |
| AuthContextModel.UseAuth | src/auth/contexts/AuthContext.js:6-12 | outside a provider the hook throws its fixed message, inside it returns the provider's value |
| AuthContextModel.AuthProvider.constructor | src/auth/contexts/AuthContext.js:15-16 | the provider starts with no user and loading |
| AuthContextModel.AuthProvider.Mount | src/auth/contexts/AuthContext.js:18-25 | with a truthy token and user document the stored user is restored and loading ends; a stored text that does not parse throws before loading ends; otherwise the user is unchanged and loading ends |
| AuthContextModel.AuthProvider.Login | src/auth/contexts/AuthContext.js:27-38 | a failed login is rethrown with user and storage unchanged; a successful one stores the token and the user document and sets the user; loading is false afterwards either way |
| AuthContextModel.AuthProvider.Logout | src/auth/contexts/AuthContext.js:40-48 | both session keys are removed and the user is cleared |
| AuthContextModel.LoginSurvivesReload | src/auth/contexts/AuthContext.js:18-38 | a provider mounted after a successful login restores the same user, and the service reports a token |
| AuthContextModel.LoginWithoutToken | src/auth/contexts/AuthContext.js:30-31 | an answer without a token stores the text "undefined", so the service still reports a token |
| AuthContextModel.LogoutSignsOut | src/auth/contexts/AuthContext.js:40-50 | after logout neither the context nor the service reports a session, and nobody is an admin |
| RoutesModel.RootRedirect | src/Routes.jsx:16-24 | while loading the loading screen shows, otherwise a signed-in visitor goes to the dashboard and any other to the login page |
| RoutesModel.RoleProtected | src/Routes.jsx:26-57 | loading comes first, then sign-in; the page shows exactly when the stored role is a non-empty text among the allowed roles; an unparsable document goes to login, any other refusal to the dashboard |
| RoutesModel.AdminAndUserDisjoint | src/Routes.jsx:59-73 | no session is admitted both to the admin pages and to the user pages |
| RoutesModel.MissingDocumentGoesToDashboard | src/Routes.jsx:37-44 | a signed-in session with no stored user document goes to the dashboard |
| RegisterFormModel.Message | src/auth/components/RegisterForm.jsx:15-37 | every sign-up check has a non-empty message |
| RegisterFormModel.Messages | src/auth/components/RegisterForm.jsx:48 | the joined error lists exactly one message per failed check, in the checks' order |
| RegisterFormModel.ProblemsEmptyIffAcceptable | src/auth/components/RegisterForm.jsx:15-37 | no message is collected exactly when the username, password and role all pass |
| RegisterFormModel.ProblemsMeaning | src/auth/components/RegisterForm.jsx:15-37 | at most one username message and one password message; each is collected exactly when its rule fails after the earlier rules of its field passed; the role message exactly for a role other than USER or ADMIN |
| RegisterFormModel.Word | src/auth/components/RegisterForm.jsx:55 | a username with no blank at either end is sent as it was typed |
| RegisterFormModel.SubmitMeaning | src/auth/components/RegisterForm.jsx:39-75 | a submit never leaves the form loading; a failing form shows every message and sends nothing; an acceptable one sends one trimmed registration, and success resets the form, shows the success message and schedules the switch to sign-in while failure shows its message, or the fixed fallback when that message is empty |
| RegisterFormModel.RegisterForm.constructor | src/auth/components/RegisterForm.jsx:9-12 | the form starts empty with role USER, no messages and nothing sent |
| RegisterFormModel.RegisterForm.Validate | src/auth/components/RegisterForm.jsx:15-37 | validation returns the problems of the current fields |
| RegisterFormModel.RegisterForm.Submit | src/auth/components/RegisterForm.jsx:39-75 | the new form state is the submit transition of the old one (described by SubmitMeaning) |
| RegisterFormModel.RegisterForm.Send | src/auth/components/RegisterForm.jsx:53-74 | the new state is the send transition: the trimmed registration is handed over, then reset on success or the message on failure |
| RegisterFormModel.RegisterForm.Change | src/auth/components/RegisterForm.jsx:77-87 | typing replaces one field only and clears both messages |
| RegisterFormModel.RegisterThroughContext | src/auth/components/RegisterForm.jsx:13-60 | as written, a valid sign-up calls a `register` the context does not offer: it fails with a TypeError and no registration is sent |
| RegisterFormModel.RegisterWithProvider | src/auth/components/RegisterForm.jsx:53-67 | with a `register` provided, the sign-up is sent with the trimmed username and the form resets with the success message |
| LoginFormModel.FirstProblem | src/auth/components/LoginForm.jsx:17-30 | no problem exactly when the username and password are not blank and the password has at least 3 characters; otherwise the first failing check's message, in the order username, password, length |
| LoginFormModel.LoginForm.constructor | src/auth/components/LoginForm.jsx:9-11 | the form starts empty, not loading, with no error and no attempt |
| LoginFormModel.LoginForm.Submit | src/auth/components/LoginForm.jsx:14-46 | a failing check shows its message and sends nothing; otherwise the trimmed username and raw password are sent once, loading ends, and a failure shows its message or the fallback |
| LoginFormModel.LoginForm.Change | src/auth/components/LoginForm.jsx:48-58 | typing replaces one field only and clears the error |
| LoginFormModel.CheckOrder | src/auth/components/LoginForm.jsx:17-30 | a blank username is reported first whatever the password, and a three-character password passes |
| ApiEndpoints.HttpError | src/ApiClient.js:24 | a refused answer's fallback message is never empty and starts with "HTTP error! status: " |
| ApiEndpoints.RouteOf | src/ApiClient.js:39-85 | sign-in, sign-up, create and update send a body and nothing else does; GET serves the three reads, POST sign-in, sign-up and create, PUT update and DELETE delete; every menu call's path lies under "/menus" |
| ApiEndpoints.MenuPathNamesId | src/ApiClient.js:63-85 | reading, updating and deleting one menu address the same path, the admin collection followed by the id's text |
| ApiEndpoints.RouteIdentifiesCall | src/ApiClient.js:39-85 | two calls with the same verb and path are the same kind of call and name ids of the same text |
| FetchClientModel.MergedHeaders | src/ApiClient.js:11-15 | the caller's headers win over the defaults; the JSON content type stays unless replaced; `Authorization` is present exactly when a non-empty token is stored or the caller gives one, and carries the bearer token otherwise |
| FetchClientModel.RequestAsWritten | src/ApiClient.js:6-17 | as written, the URL is base plus endpoint and a missing verb is GET; caller headers replace the merged headers outright |
| FetchClientModel.Request | src/ApiClient.js:10-15 | with the header merge as intended, the request carries the merged headers whatever the caller passes |
| FetchClientModel.NoCallerHeadersNoDifference | src/ApiClient.js:39-85 | for options without headers, which every endpoint passes, the request as written and as intended coincide |
| FetchClientModel.ExtraHeaderDropsToken | src/ApiClient.js:10-17 | as written, a caller's extra header drops both the content type and the stored token, which the intended merge keeps |
| FetchClientModel.OptionsOf | src/ApiClient.js:39-85 | each endpoint passes its own verb and body and no headers |
| FetchClientModel.EndpointRequest | src/ApiClient.js:6-85 | every endpoint reaches the base URL plus its path with its verb, its body, the JSON content type and a bearer header exactly when a non-empty token is stored |
| FetchClientModel.Respond | src/ApiClient.js:19-36 | a network failure is rethrown unchanged and a refused answer always throws a non-empty message |
| FetchClientModel.RefusalMessage | src/ApiClient.js:22-25 | a refused answer throws its body text, or the status line when the body is empty |
| FetchClientModel.SuccessDecoding | src/ApiClient.js:27-32 | a successful answer is decoded as JSON exactly when declared JSON and parsable, fails exactly when declared JSON and not parsable, and is otherwise returned as its text |
| FetchClientModel.CharsetStillJson | src/ApiClient.js:28 | a JSON content type with a charset parameter is still read as JSON |
| MejaApiModel.BaseUrl | src/components/apiService.js:1 | a non-empty configured URL is used, otherwise the local server |
| MejaApiModel.HeaderObject.constructor | src/components/apiService.js:5-11 | a header object holds the entries it is given |
| MejaApiModel.ConfigureHeaders | src/components/apiService.js:5-15 | the config uses the caller's own header object when one is passed, a fresh JSON one otherwise, and writes the bearer token into it when a token is given |
| MejaApiModel.CallerHeadersGainToken | src/components/apiService.js:10-15 | a caller's own header object comes back holding the token and without the JSON content type |
| MejaApiModel.UsernameBody | src/components/apiService.js:80 | the body is an object whose `username` is the argument, and empty when the argument is undefined |
| MejaApiModel.RouteOf | src/components/apiService.js:34-135 | the three reads are GETs, only deletion is a DELETE, and exactly create, update, assignment, sign-in and sign-up send a body |
| MejaApiModel.Respond | src/components/apiService.js:17-30 | a network failure is rethrown; a successful answer gives its parsed body or throws when it does not parse; a refused answer always throws |
| MejaApiModel.RefusalMessage | src/components/apiService.js:20-24 | a refused answer throws its body's non-empty `message`, and the status line when the body does not parse or carries none |
| MejaApiModel.ListField | src/components/apiService.js:34-40 | a failure passes through, a `null` answer throws, and any other answer yields a truthy list: its field when truthy |
| MejaApiModel.FieldOf | src/components/apiService.js:47 | a failure passes through, a `null` answer throws, and any other answer yields its field, possibly undefined |
| MejaApiModel.Decode | src/components/apiService.js:34-135 | a failure is rethrown unchanged, and every call but the lookup by number returns a defined value |
| MejaApiModel.Call | src/components/apiService.js:4-135 | the request goes to the base URL plus the call's path with its verb and body, the JSON content type, and a bearer header exactly when the call carries the caller's non-empty token; the result is the decoded answer |
| MejaApiModel.AllMejaDefaultsToEmpty | src/components/apiService.js:34-48 | an answer without `meja` lists no tables while the lookup returns undefined |
| AxiosGatewayModel.ErrorMessage | src/manage-menu/ApiClient.js:42-47 | with no answer, the error's own message or the fixed default is thrown |
| AxiosGatewayModel.ErrorMessageOrder | src/manage-menu/ApiClient.js:42-47 | a truthy `message` of the answer wins; an object answer without one prints as "[object Object]"; a non-empty text answer is used whole; a falsy answer falls back to the error's message and then to the default |
| AxiosGatewayModel.Prefix | src/manage-menu/ApiClient.js:53-116 | every endpoint's prefix ends with ": " |
| AxiosGatewayModel.PrefixRoundTrip | src/manage-menu/ApiClient.js:53-116 | a rethrown message starts with its endpoint's prefix and gives back the underlying message whole |
| AxiosGatewayModel.AxiosClient.ForMenus | src/manage-menu/ApiClient.js:4-40 | the menu client reads `token`, clears the legacy keys and `userId` on a 401, uses the default base and offers the menu calls |
| AxiosGatewayModel.AxiosClient.ForAuth | src/auth/repositories/AuthRepository.js:5-37 | the auth repository reads `authToken`, clears `authToken` and `userData` on a 401, uses the configured base and offers only sign-in and sign-up |
| AxiosGatewayModel.AxiosClient.Authorize | src/manage-menu/ApiClient.js:14-25 | a truthy stored token adds the bearer header, leaving the others as they were; otherwise the headers are unchanged |
| AxiosGatewayModel.AxiosClient.Reject | src/manage-menu/ApiClient.js:32-48 | a 401 removes exactly the client's session keys and asks for one reload, any other failure changes nothing; the message is the chosen one |
| AxiosGatewayModel.AxiosClient.Call | src/manage-menu/ApiClient.js:14-116 | the request is logged with the call's verb, base plus path, the default headers with the bearer token when stored, and its body; success returns the data and changes nothing, failure rethrows the prefixed message and tears the session down on a 401 only |
| GatewaySessionModel.MenuUnauthorizedSignsOut | src/manage-menu/ApiClient.js:33-40 | a 401 on a menu call leaves the legacy service signed out with no user, after one reload, and throws the prefixed server message |
| GatewaySessionModel.AuthUnauthorizedSignsOut | src/auth/repositories/AuthRepository.js:33-37 | a 401 on the auth repository leaves the auth service with no token, no user and no admin, whatever else is stored |
| GatewaySessionModel.MessageText | src/auth/repositories/AuthRepository.js:39-42 | an answer `{ message: text }` with a non-empty text throws that text |
| GatewaySessionModel.BadRequestKeepsSession | src/auth/repositories/AuthRepository.js:49-55 | a refusal other than 401 keeps the stored session and throws "Login failed: " with the server's message |
| JsonData.Get | src/auth/services/AuthService.js:13-17 | a property is defined exactly when the value is an object holding that key |
| Session.GetItem | src/auth/services/AuthService.js:38 | a stored key reads back its item and a missing key reads as `null` |
| Session.ParseItem | src/Routes.jsx:38 | parsing a stored value succeeds exactly for a missing key (giving `null`) or a stored document, which gives its value |
| Session.TextItem | src/Services/AuthService.js:10-12 | storing a value keeps its text, and an undefined value as the text "undefined" |
| Session.RemoveKeepsOthers | src/Services/AuthService.js:28-32 | removing keys leaves every other key as it was and the removed ones absent |
| Js.ParseIntOfScalar | src/manage-menu/services/MenuService.js:48 | `parseInt` of a value reads its text: a number comes back unchanged and every non-text, non-number value gives NaN |
| StoredUser.StoredToken | src/manage-menu/components/AddToCart.jsx:10 | the token is absent exactly when no `authToken` item is stored, and a stored text is passed on as it is |
| StoredUser.UsernameOf | src/manage-meja/components/UserTablePanel.jsx:15 | a username is read exactly when the record's `username` property holds a text, and it is that text |
| StoredUser.UserDataOrEmpty | src/manage-menu/components/AddToCart.jsx:11 | a missing or empty stored user item reads as the empty object and a stored document as its value; it throws the JSON syntax error exactly for any other non-empty text |
| StoredUser.UserIdOf | src/manage-menu/components/AddToCart.jsx:12 | the `userId` property when it is truthy, otherwise the `id` property; a record that is not an object has neither |
| StoredUser.ScalarOf | src/manage-menu/components/AddToCart.jsx:12 | a missing property is undefined, a flat JSON value becomes the same scalar, and truthiness is kept for every flat value |
| StoredUser.StoredUserId | src/manage-menu/components/MenuRating.jsx:18-20 | the widgets' identity read succeeds exactly when the user item parses under the `\|\| '{}'` fallback, and then pairs the stored token with the chosen id |
| StoredUser.StoredUserIdPrefersUserId | src/manage-menu/components/MenuRating.jsx:20 | a stored document with a non-zero numeric `userId` gives that id, whatever `id` holds |
| StoredUser.StoredUserIdFallsBackToId | src/manage-menu/components/MenuRating.jsx:20 | a stored document whose `userId` is missing or falsy gives its `id` |
| StoredUser.NothingStoredHasNoUserId | src/manage-menu/components/AddToCart.jsx:11-12 | with no user stored, the widgets read an undefined id, so they render signed out |
| StoredUser.StoredUsername | src/manage-meja/components/UserTablePanel.jsx:13-15 | without a fallback, every stored user text that is not a document throws; a missing item gives no username, and a document gives its username |
| StoredUser.EmptyUserTextOnlyBreaksPanel | src/manage-meja/components/UserTablePanel.jsx:14 | an empty stored user text is tolerated by the menu widgets' `\|\| '{}'` but throws in the table panel |

## Left out

- Transport and timing. `fetch`, `axios`, `EventSource` and the server are not simulated: each call is handed its answer as a parameter. Timeouts, abort signals and the axios 10-second limit are not modelled.
- Concurrency. Overlapping requests, stale closures and React's batching of state updates are not modelled; each handler or effect is one atomic step over the state it writes.
- Timers. The reconnect timers of the live table screen and the recheck timer of the customer's table panel are pending entries fired explicitly by the model. Delays are recorded as numbers, and no clock advances.
- CheckoutHook.Checkout.UpdateItemQuantity, SubmitCheckout, CancelCheckout and CheckoutHook.AdminCheckout.ProcessCheckout: the timers that clear `success` later (3000 ms, 5000 ms, 2000 ms and 3000 ms; src/checkout/hooks/useCheckout.js:96, 116, 139-142 and 211) are not modelled, so the success message stays until `clearSuccess`. The cancel timer's `redirect('/pesanan')` is left out with it; outside a router loader or action it builds a redirect response that nobody returns, so it navigates nowhere.
- RegisterFormModel.SubmitMeaning: the timer that switches to the sign-in form after a registration is only counted (`switchesScheduled`), never fired.
- The browser's dialogs and navigation. `window.confirm` is a boolean parameter. `window.location.reload` is counted, not performed. `navigate`/`Navigate` are recorded as target paths.
- JSON text. `JSON.stringify` and `JSON.parse` are abstracted. A stored item is either a document written by `JSON.stringify`, which parses back to its value, or a text stored as is, which `JSON.parse` is taken to refuse. A text such as "123" or "null" would in fact parse, but the only entry read through `JSON.parse`, `userData`, is only written as a document. The exact text of a serialised document is not computed, and neither is the `Bearer ${token}` text when the token item is such a document (`BearerOf`).
- Numbers. JSON and JavaScript numbers are integers in the model. Prices, the 10% tax and the service charge are exact reals, so floating-point rounding is not modelled. `parseFloat` is a parameter: its result, or `NaN` as `None`. `parseInt` is modelled in base 10 only: leading white space, a sign, then digits; hexadecimal prefixes are not.
- MenuFormModel.InitialData: a menu's `price` is taken to be a number, so the `NaN` a text price would produce in the price check is not modelled.
- MenuServiceModel.ProblemsMeaning: whether the `URL` constructor accepts a text is a parameter (`urlParses`); URL syntax is not modelled.
- StoredUser.StoredToken: a token stored as a document stands for its `String(v)`, not its JSON text. Every sign-in path stores the token as text, so this case does not arise in the model.
- StoredUser.UsernameOf: a stored `username` that is not a text (a number, say) is read as no username.
- StoredUser.ScalarOf: an id stored as an array or object is held as its `String(v)` text. Truthiness then differs only for an array that prints as the empty text (`[]`, `[null]`), which the model reads as falsy and JavaScript as truthy; sign-in stores ids as numbers, so this does not arise in practice.
- MejaStream.LiveTablePanel.ChangeToken: the table API calls take the token as an argument, but `sent` does not record it, so the model does not say which token a later request carries.
- Rendering. JSX markup, CSS, icons and alerts are not modelled, beyond the gating predicates and the values each view shows. This covers ProtectedRoute.jsx, the layout and header components, the pages, AdminCheckoutView.jsx and the app shells.
- Currency formatting (src/checkout/utils/currency.js). It is locale formatting by `Intl.NumberFormat`.
- Console logging. It has no effect on state.
- Fetch-only wrappers with no logic of their own. These are manage-meja/services/apiService.js, manage-pesanan/services/PesananApi.js, Services/MenuService.js, rating/services/api.js and rating/services/RatingApi.js.
- Rating operations. The operations MenuRating.jsx imports but RatingApi.js does not export (`getUserRating`, `createRatingAsync`, `updateRatingAsync`, `deleteRatingAsync`) are treated as abstract calls whose replies are parameters.
- The legacy forms, `AppContext`, the mock rating pages and their tests. They have no validation logic, use mock data, or disagree with the code they test.
- The SSE helper `createMejaEventSource` (src/components/apiService.js:94-110). It is unused wiring.
- `register` in src/auth/services/AuthService.js:26-34. It passes the repository's answer or error through unchanged, so only the repository call (`AxiosGatewayModel.AxiosClient.Call`) is modelled.
- The `loading` flags that only drive spinners and disabled buttons. The auth context (`AuthContextModel.AuthProvider`) and the registration form (`RegisterFormModel.FormState`) hold theirs as state. The checkout views (`UserCheckoutView.Render`, `CheckoutModule.SummaryPanelOf`), the rating clicks, the route guards and the table rows' Delete button take the flag as a parameter. The checkout hooks, the menu forms and the sign-in form do not model theirs, because no rule of theirs reads it.
- CheckoutApi.WithFixedMessage: a 2xx answer is taken to carry a JSON body of the expected shape. The `SyntaxError` that `response.json()` throws on a 2xx body that does not parse (lines 21, 31, 44, 58, 68, 101 and 126 of src/checkout/services/CheckoutApi.js) is not modelled. The same holds for CheckoutApi.WithResponseText, whose callers `createCheckout` and `submitCheckout` read JSON on success.
- AddToCartWidget.NumberOfText: `Number(text)` is modelled for blank text and an optional sign followed by decimal digits. The other texts JavaScript's `Number` accepts, such as "1.0", "1e0", "0x1" and "Infinity", are read as not a number, so `LooseEquals` of such a text and a number is false in the model.
- MenuFormModel.ProblemsMeaning: text lengths are counted in Unicode scalar values (`|s|`), while JavaScript's `length` counts UTF-16 code units, so a text with characters outside the Basic Multilingual Plane is shorter in the model. The same holds for RegisterFormModel.ProblemsMeaning, LoginFormModel.FirstProblem and MenuServiceModel.ProblemsMeaning.

## Findings

| source | as written | input that shows it | evidently intended | confidence | as-written member | corrected member |
|---|---|---|---|---|---|---|
| src/checkout/components/CheckoutModule.jsx:12-31 | the role effect starts with `if (loading) return;` where `loading` is the spinner component imported on line 12 (`import loading from "../../general/components/ui/Loading"`), which is always truthy | an ADMIN opening the page with `?admin=true`, or a visitor who is not signed in | wait for the auth context's loading flag, then redirect to /login or choose the view | high; not executed | CheckoutModule.RoleEffectAsWritten | CheckoutModule.RoleEffectCorrected |
| src/manage-meja/components/MejaManagement.jsx:27-31 | the unmount cleanup closes the held source but does not clear a reconnect timer that `onerror` scheduled | mount, a stream error (reconnect in 2000 ms), unmount, then the timer fires | the cleanup also clears the pending reconnect timer | high; not executed | MejaStream.UnmountLeavesReconnectArmed | MejaStream.UnmountCancellingLeavesNothing |
| src/auth/components/RegisterForm.jsx:13-60 | the form takes `register` from `useAuth()`, whose value (src/auth/contexts/AuthContext.js:53-63) has no `register` | a valid sign-up: username "budi", password "rahasia", role USER | the registration is sent and the form resets with the success message | high; not executed | RegisterFormModel.RegisterThroughContext | RegisterFormModel.RegisterWithProvider |
| src/ApiClient.js:10-17 | `...options` is spread after `headers`, so a caller's `options.headers` replaces the merged headers | options with headers `{ "X-Trace": "1" }` while the token "abc" is stored | the caller's headers are merged over the content type and the bearer token | medium; not executed | FetchClientModel.ExtraHeaderDropsToken | FetchClientModel.Request |
