/** The quantity widget under a menu item: the quantity held in the server cart, add, step up
    or down, and remove. */
module AddToCartWidget {
  import opened Wrappers
  import opened Text
  import opened Js
  import Session
  import StoredUser

  /** A line of the server cart as the cart service sends it. */
  datatype ServerLine = ServerLine(menuId: Scalar, quantity: int)

  /** The calls the widget makes to the cart service. */
  datatype CartCall =
    | FetchLines(userId: Scalar)
    | AddItem(userId: Scalar, menuId: Scalar)
    | ChangeItem(userId: Scalar, menuId: Scalar, change: int)
    | RemoveItem(userId: Scalar, menuId: Scalar)

  /** `Number(s)` for the strings the model covers: blank reads as 0, optional sign and
      decimal digits as their value, anything else as not a number. */
  function NumberOfText(s: string): Option<int> {
    var t := Trim(s);
    if t == "" then Some(0)
    else if t[0] == '-' && |t| > 1 && AllDigits(t[1..]) then var v: int := DigitsValue(t[1..]); Some(-v)
    else if t[0] == '+' && |t| > 1 && AllDigits(t[1..]) then Some(DigitsValue(t[1..]))
    else if AllDigits(t) then Some(DigitsValue(t))
    else None
  }

  /** `a == b` (abstract equality) on the values an id can hold. */
  predicate LooseEquals(a: Scalar, b: Scalar)
    decreases (if a.Bool? then 1 else 0) + (if b.Bool? then 1 else 0)
  {
    match (a, b)
    case (Undefined, _) => b.Undefined? || b.Null?
    case (Null, _) => b.Undefined? || b.Null?
    case (_, Undefined) => false
    case (_, Null) => false
    case (Num(x), Num(y)) => x == y
    case (Str(x), Str(y)) => x == y
    case (Num(x), Str(y)) => NumberOfText(y) == Some(x)
    case (Str(x), Num(y)) => NumberOfText(x) == Some(y)
    case (Bool(x), _) => LooseEquals(Num(if x then 1 else 0), b)
    case (_, Bool(y)) => LooseEquals(a, Num(if y then 1 else 0))
  }

  /** A numeric id and its decimal text are loosely equal, in either order. */
  lemma LooseEqualsNumberText(n: nat)
    ensures LooseEquals(Num(n), Str(NatToString(n))) && LooseEquals(Str(NatToString(n)), Num(n))
  {
    NumberOfNatText(n);
  }

  /** `Number(String(n))` gives `n` back. */
  lemma NumberOfNatText(n: nat)
    ensures NumberOfText(NatToString(n)) == Some(n)
  {
    var t := NatToString(n);
    DigitsOfNat(n);
    TrimOfDigits(t);
    assert t[0] != '-' && t[0] != '+' by { assert IsDigit(t[0]); }
  }

  lemma TrimOfDigits(t: string)
    requires t != [] && AllDigits(t)
    ensures Trim(t) == t
  {
    assert !IsSpace(t[0]) && !IsSpace(t[|t| - 1]);
    TrimStartNoLeadingSpace(t);
    TrimEndNoTrailingSpace(t);
  }

  /** `cartItems.find(item => item.menuId == menuId)`, then its quantity or 0. */
  function InitialQuantity(lines: seq<ServerLine>, menuId: Scalar): (q: int)
    ensures (forall i :: 0 <= i < |lines| ==> !LooseEquals(lines[i].menuId, menuId)) ==> q == 0
    ensures (exists i :: 0 <= i < |lines| && LooseEquals(lines[i].menuId, menuId)) ==>
              exists i :: 0 <= i < |lines| && LooseEquals(lines[i].menuId, menuId) && q == lines[i].quantity
                          && forall j :: 0 <= j < i ==> !LooseEquals(lines[j].menuId, menuId)
  {
    if lines == [] then 0
    else if LooseEquals(lines[0].menuId, menuId) then lines[0].quantity
    else
      var q := InitialQuantity(lines[1..], menuId);
      assert forall i :: 1 <= i < |lines| ==> lines[1..][i - 1] == lines[i];
      q
  }

  const LoginMessage := "Please login to add items to cart"

  /** What the widget shows: the login hint, the error with its retry link, the add button,
      or the stepper with the quantity and the line total. */
  datatype Shown = LoginHint | ErrorBox(message: string) | AddButton | Stepper(quantity: int, total: real)

  class AddToCart {
    const menuId: Scalar
    const price: real
    const token: Option<string>
    /** `userData?.userId || userData?.id`. */
    const userId: Scalar

    var quantity: int
    var error: string
    var sent: seq<CartCall>
    /** Whether the parent passed an `onCartUpdate` callback. */
    const hasCallback: bool
    /** How many times `onCartUpdate` was called; it stays 0 when no callback was passed. */
    var notified: nat

    constructor (menuId: Scalar, price: real, token: Option<string>, userId: Scalar, hasCallback: bool)
      ensures this.menuId == menuId && this.price == price && this.token == token && this.userId == userId
      ensures this.hasCallback == hasCallback
      ensures quantity == 0 && error == "" && sent == [] && notified == 0
    {
      this.menuId, this.price, this.token, this.userId := menuId, price, token, userId;
      this.hasCallback := hasCallback;
      quantity, error, sent, notified := 0, "", [], 0;
    }

    predicate SignedIn()
      reads this
    {
      Present(token) && Truthy(userId)
    }

    /** One more notification exactly when the parent passed a callback (`if (onCartUpdate)`). */
    function Notice(): nat
      reads this
    {
      if hasCallback then 1 else 0
    }

    /** The fetch effect: with a menu id, a user and a token, the quantity of the first server
        line whose menu id loosely equals this one, else 0; a failed fetch changes nothing. */
    method FetchEffect(reply: Result<seq<ServerLine>>)
      modifies this`quantity, this`sent
      ensures !(Truthy(menuId) && SignedIn()) ==> quantity == old(quantity) && sent == old(sent)
      ensures Truthy(menuId) && SignedIn() ==> sent == old(sent) + [FetchLines(userId)]
      ensures Truthy(menuId) && SignedIn() && reply.Ok? ==> quantity == InitialQuantity(reply.value, menuId)
      ensures reply.Err? ==> quantity == old(quantity)
    {
      if !Truthy(menuId) || !SignedIn() {
        return;
      }
      sent := sent + [FetchLines(userId)];
      if reply.Ok? {
        quantity := InitialQuantity(reply.value, menuId);
      }
    }

    /** `handleAddToCart`. */
    method Add(reply: Reply)
      modifies this`quantity, this`error, this`sent, this`notified
      ensures !SignedIn() ==> error == LoginMessage && quantity == old(quantity) && sent == old(sent)
                              && notified == old(notified)
      ensures SignedIn() ==> sent == old(sent) + [AddItem(userId, menuId)]
      ensures SignedIn() && reply.Done? ==> quantity == 1 && error == "" && notified == old(notified) + Notice()
      ensures SignedIn() && reply.Failed? ==>
                quantity == old(quantity) && error == "Failed to add item to cart" && notified == old(notified)
    {
      if !SignedIn() {
        error := LoginMessage;
        return;
      }
      error := "";
      sent := sent + [AddItem(userId, menuId)];
      if reply.Done? {
        quantity := 1;
        if hasCallback {
          notified := notified + 1;
        }
      } else {
        error := "Failed to add item to cart";
      }
    }

    /** `handleRemove`. */
    method Remove(reply: Reply)
      modifies this`quantity, this`error, this`sent, this`notified
      ensures !SignedIn() ==> error == old(error) && quantity == old(quantity) && sent == old(sent)
                              && notified == old(notified)
      ensures SignedIn() ==> sent == old(sent) + [RemoveItem(userId, menuId)]
      ensures SignedIn() && reply.Done? ==> quantity == 0 && error == "" && notified == old(notified) + Notice()
      ensures SignedIn() && reply.Failed? ==>
                quantity == old(quantity) && error == "Failed to remove item from cart" && notified == old(notified)
    {
      if !SignedIn() {
        return;
      }
      error := "";
      sent := sent + [RemoveItem(userId, menuId)];
      if reply.Done? {
        quantity := 0;
        if hasCallback {
          notified := notified + 1;
        }
      } else {
        error := "Failed to remove item from cart";
      }
    }

    /** `handleQuantityChange(change)`: a step to zero or below removes the item; otherwise the
        change is sent and, on success, the quantity becomes the old one plus the change. */
    method ChangeQuantity(change: int, update: Reply, remove: Reply)
      modifies this`quantity, this`error, this`sent, this`notified
      ensures !SignedIn() ==> error == old(error) && quantity == old(quantity) && sent == old(sent)
                              && notified == old(notified)
      ensures SignedIn() && old(quantity) + change <= 0 ==>
                sent == old(sent) + [RemoveItem(userId, menuId)]
                && quantity == (if remove.Done? then 0 else old(quantity))
                && error == (if remove.Done? then "" else "Failed to remove item from cart")
      ensures SignedIn() && old(quantity) + change > 0 ==>
                sent == old(sent) + [ChangeItem(userId, menuId, change)]
                && quantity == (if update.Done? then old(quantity) + change else old(quantity))
                && error == (if update.Done? then "" else "Failed to update cart item")
                && notified == (if update.Done? then old(notified) + Notice() else old(notified))
      ensures SignedIn() && old(quantity) + change <= 0 ==>
                notified == (if remove.Done? then old(notified) + Notice() else old(notified))
      ensures old(quantity) >= 0 ==> quantity >= 0
    {
      if !SignedIn() {
        return;
      }
      var newQuantity := quantity + change;
      if newQuantity <= 0 {
        Remove(remove);
        return;
      }
      error := "";
      sent := sent + [ChangeItem(userId, menuId, change)];
      if update.Done? {
        quantity := newQuantity;
        if hasCallback {
          notified := notified + 1;
        }
      } else {
        error := "Failed to update cart item";
      }
    }

    /** The "Try again" link only clears the error. */
    method ClearError()
      modifies this`error
      ensures error == ""
    {
      error := "";
    }

    /** The render decision, in the component's order. */
    function Shown(): (r: Shown)
      reads this
      ensures r == LoginHint <==> !Present(token)
      ensures r.Stepper? ==> r.quantity == quantity && r.total == price * (quantity as real) && quantity != 0
      ensures r == AddButton <==> Present(token) && error == "" && quantity == 0
    {
      if !Present(token) then LoginHint
      else if error != "" then ErrorBox(error)
      else if quantity == 0 then AddButton
      else Stepper(quantity, price * (quantity as real))
    }
  }

  /** The widget as it renders: `token` and `userId` are read from browser storage first, and
      a stored user text that is not JSON throws before the widget exists. */
  method RenderFromStorage(st: Session.Storage, menuId: Scalar, price: real, hasCallback: bool)
    returns (r: Result<AddToCart>)
    ensures r.Ok? <==> StoredUser.StoredUserId(st).Ok?
    ensures r.Err? ==> r.message == StoredUser.StoredUserId(st).message
    ensures r.Ok? ==> fresh(r.value) && r.value.menuId == menuId && r.value.price == price
                      && r.value.hasCallback == hasCallback
                      && (r.value.token, r.value.userId) == StoredUser.StoredUserId(st).value
                      && r.value.quantity == 0 && r.value.error == "" && r.value.sent == [] && r.value.notified == 0
  {
    match StoredUser.StoredUserId(st) {
      case Err(e) => r := Err(e);
      case Ok(id) =>
        var w := new AddToCart(menuId, price, id.0, id.1, hasCallback);
        r := Ok(w);
    }
  }

  /** Stepping down from one removes the item, and stepping back up needs a fresh add: the
      widget goes back to the add button once the removal succeeds. */
  method StepDownFromOne(menuId: Scalar) returns (shown: Shown, log: seq<CartCall>)
    requires Truthy(menuId)
    ensures shown == AddButton
    ensures log == [AddItem(Num(3), menuId), RemoveItem(Num(3), menuId)]
  {
    var w := new AddToCart(menuId, 15000.0, Some("t"), Num(3), true);
    w.Add(Done);
    w.ChangeQuantity(-1, Done, Done);
    shown, log := w.Shown(), w.sent;
  }
}
