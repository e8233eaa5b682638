/** The restaurant tables ("meja") as the server sends them, the cart count shown beside an
    occupied table, and the per-row button rules of the two table-management screens. */
module MejaModel {
  import opened Wrappers
  import opened Js

  /** One line of a table's cart: the menu item's name (may be absent) and its quantity. */
  datatype CartLine = CartLine(menuName: Option<string>, quantity: int)

  /** A table's cart; `items` is absent when the server sends no list. */
  datatype Cart = Cart(items: Option<seq<CartLine>>)

  /** A table: its database id, its number, the user sitting at it (JSON `null` when free) and
      the cart of that user. */
  datatype Meja = Meja(id: int, nomor: int, username: Option<string>, cart: Option<Cart>)

  /** A request a table screen sends to the table service (the token rides along with each).
      `key` is a table number or a table id, depending on the screen; `target` is `None` when
      the number typed in reads as `NaN`. */
  datatype Request =
    | FetchAll
    | CreateMeja(form: Scalar)
    | UpdateMeja(key: int, form: Scalar)
    | DeleteMeja(key: int)
    | AssignMeja(target: Option<int>, username: Option<string>)
    | CompleteOrder(key: int)

  /** `meja.username` is truthy: the row is shown as occupied. */
  predicate Occupied(m: Meja) {
    Present(m.username)
  }

  /** `meja.username === username`: strict equality of the table's user with the signed-in
      user (JSON `null` never equals a string or `undefined`). */
  predicate SeatedBy(m: Meja, username: Option<string>) {
    m.username.Some? && username == m.username
  }

  /** `items.reduce((total, item) => total + item.quantity, 0)`. */
  function SumQuantities(items: seq<CartLine>): int {
    if items == [] then 0 else SumQuantities(items[..|items| - 1]) + items[|items| - 1].quantity
  }

  /** `getCartItemsCount(cart)`: 0 when the cart or its item list is missing. */
  function CartItemsCount(cart: Option<Cart>): int {
    if cart.None? || cart.value.items.None? then 0 else SumQuantities(cart.value.items.value)
  }

  /** The item count of a concatenation is the sum of the counts of its parts. */
  lemma {:induction false} SumQuantitiesAppend(a: seq<CartLine>, b: seq<CartLine>)
    ensures SumQuantities(a + b) == SumQuantities(a) + SumQuantities(b)
  {
    if b == [] {
      assert a + b == a;
    } else {
      assert (a + b)[..|a + b| - 1] == a + b[..|b| - 1];
      SumQuantitiesAppend(a, b[..|b| - 1]);
    }
  }

  /** The count is 0 for a missing cart or missing items, and when every line holds at least one
      unit it is at least the number of lines (and 0 only for an empty list). */
  lemma {:induction false} CartItemsCountBounds(cart: Option<Cart>)
    ensures cart.None? || cart.value.items.None? ==> CartItemsCount(cart) == 0
    ensures cart.Some? && cart.value.items.Some? &&
            (forall i :: 0 <= i < |cart.value.items.value| ==> cart.value.items.value[i].quantity >= 1)
            ==> CartItemsCount(cart) >= |cart.value.items.value|
  {
    if cart.Some? && cart.value.items.Some? {
      var items := cart.value.items.value;
      if forall i :: 0 <= i < |items| ==> items[i].quantity >= 1 {
        AtLeastOnePerLine(items);
      }
    }
  }

  lemma {:induction false} AtLeastOnePerLine(items: seq<CartLine>)
    requires forall i :: 0 <= i < |items| ==> items[i].quantity >= 1
    ensures SumQuantities(items) >= |items|
  {
    if items != [] {
      AtLeastOnePerLine(items[..|items| - 1]);
    }
  }

  /** The Delete button of the live screen: disabled while loading or while the table is
      occupied. */
  predicate DeleteDisabled(loading: bool, m: Meja) {
    loading || Occupied(m)
  }

  /** "Assign to Me" is offered only for a free table. */
  predicate AssignShown(m: Meja) {
    !Occupied(m)
  }

  /** "Complete Order" is offered only on an occupied table held by the signed-in user. */
  predicate CompleteShown(m: Meja, username: Option<string>) {
    Occupied(m) && SeatedBy(m, username)
  }

  /** The row rules of the live screen never offer both Assign and Complete, never let an
      occupied table be deleted, and offer Complete exactly on the signed-in user's own
      occupied table. */
  lemma RowActionsConsistent(loading: bool, m: Meja, username: Option<string>)
    ensures !(AssignShown(m) && CompleteShown(m, username))
    ensures CompleteShown(m, username) ==> DeleteDisabled(loading, m)
    ensures CompleteShown(m, username) <==> Present(username) && m.username == username
    ensures !DeleteDisabled(loading, m) ==> AssignShown(m)
  {
  }
}
