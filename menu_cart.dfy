/** The client-side menu cart kept by the menu context: add, remove, set a quantity, clear, and
    the running total. Each operation maps the previous cart to the next one. */
module MenuCart {
  import opened Js

  /** A menu item as the menu context receives it. */
  datatype MenuItem = MenuItem(id: Scalar, name: string, price: real)

  /** A cart entry: the item's fields spread in, plus its quantity. */
  datatype Entry = Entry(id: Scalar, name: string, price: real, quantity: int)

  type Cart = seq<Entry>

  /** Some entry of the cart has this id (`prev.find(cartItem => cartItem.id === item.id)`). */
  predicate Has(cart: Cart, id: Scalar) {
    exists i :: 0 <= i < |cart| && cart[i].id == id
  }

  /** The cart invariant: no id twice and every quantity at least one. */
  predicate Valid(cart: Cart) {
    && (forall i, j :: 0 <= i < j < |cart| ==> cart[i].id != cart[j].id)
    && (forall i :: 0 <= i < |cart| ==> cart[i].quantity >= 1)
  }

  /** `prev.map(e => e.id === id ? { ...e, quantity: f(e) } : e)` with `f` "plus one" or
      "set to q". */
  function Bump(cart: Cart, id: Scalar): (r: Cart)
    ensures |r| == |cart|
    ensures forall i :: 0 <= i < |cart| ==>
              r[i] == if cart[i].id == id then cart[i].(quantity := cart[i].quantity + 1) else cart[i]
  {
    if cart == [] then []
    else Bump(cart[..|cart| - 1], id) +
         [var e := cart[|cart| - 1]; if e.id == id then e.(quantity := e.quantity + 1) else e]
  }

  function SetQuantity(cart: Cart, id: Scalar, q: int): (r: Cart)
    ensures |r| == |cart|
    ensures forall i :: 0 <= i < |cart| ==> r[i] == if cart[i].id == id then cart[i].(quantity := q) else cart[i]
  {
    if cart == [] then []
    else SetQuantity(cart[..|cart| - 1], id, q) +
         [var e := cart[|cart| - 1]; if e.id == id then e.(quantity := q) else e]
  }

  /** `addToCart(item)`: an item already in the cart gets one more; a new one is appended with
      quantity one. */
  function Add(cart: Cart, item: MenuItem): (r: Cart)
    ensures Has(cart, item.id) ==> r == Bump(cart, item.id)
    ensures !Has(cart, item.id) ==> r == cart + [Entry(item.id, item.name, item.price, 1)]
  {
    if Has(cart, item.id) then Bump(cart, item.id) else cart + [Entry(item.id, item.name, item.price, 1)]
  }

  /** `removeFromCart(id)`: `prev.filter(item => item.id !== id)`. */
  function Remove(cart: Cart, id: Scalar): (r: Cart)
    ensures forall i :: 0 <= i < |r| ==> r[i].id != id
    ensures |r| <= |cart|
  {
    if cart == [] then []
    else
      var rest := Remove(cart[..|cart| - 1], id);
      var last := cart[|cart| - 1];
      if last.id == id then rest else rest + [last]
  }

  /** Exactly the entries with another id survive a removal. */
  lemma {:induction false} RemoveMembers(cart: Cart, id: Scalar, e: Entry)
    ensures e in Remove(cart, id) <==> e in cart && e.id != id
  {
    if cart != [] {
      var init := cart[..|cart| - 1];
      assert cart == init + [cart[|cart| - 1]];
      RemoveMembers(init, id, e);
    }
  }

  /** `updateQuantity(id, q)`: a quantity of zero or less removes the entry. */
  function UpdateQuantity(cart: Cart, id: Scalar, q: int): (r: Cart)
    ensures q <= 0 ==> r == Remove(cart, id)
    ensures q > 0 ==> r == SetQuantity(cart, id, q)
  {
    if q <= 0 then Remove(cart, id) else SetQuantity(cart, id, q)
  }

  /** `clearCart()`. */
  function Clear(cart: Cart): (r: Cart)
    ensures r == [] && Valid(r)
  {
    []
  }

  /** `cart.reduce((total, item) => total + item.price * item.quantity, 0)`. */
  function Total(cart: Cart): real {
    if cart == [] then 0.0 else Total(cart[..|cart| - 1]) + Line(cart[|cart| - 1])
  }

  /** `item.price * item.quantity`. */
  function Line(e: Entry): real {
    e.price * (e.quantity as real)
  }

  /** One unit more adds the price once to the line. */
  lemma LineBump(e: Entry)
    ensures Line(e.(quantity := e.quantity + 1)) == Line(e) + e.price
  {
    var q := e.quantity as real;
    assert e.price * (q + 1.0) == e.price * q + e.price;
  }

  /** Removal keeps the order of what it keeps: it distributes over concatenation, and is the
      identity on a cart without the id. */
  lemma {:induction false} RemoveAppend(a: Cart, b: Cart, id: Scalar)
    ensures Remove(a + b, id) == Remove(a, id) + Remove(b, id)
  {
    if b == [] {
      assert a + b == a;
    } else {
      assert (a + b)[..|a + b| - 1] == a + b[..|b| - 1];
      RemoveAppend(a, b[..|b| - 1], id);
    }
  }

  lemma {:induction false} RemoveAbsent(cart: Cart, id: Scalar)
    requires forall i :: 0 <= i < |cart| ==> cart[i].id != id
    ensures Remove(cart, id) == cart
  {
    if cart != [] {
      var init := cart[..|cart| - 1];
      forall i | 0 <= i < |init|
        ensures init[i].id != id
      {
        assert init[i] == cart[i];
      }
      RemoveAbsent(init, id);
    }
  }

  lemma {:induction false} TotalAppend(a: Cart, b: Cart)
    ensures Total(a + b) == Total(a) + Total(b)
  {
    if b == [] {
      assert a + b == a;
    } else {
      assert (a + b)[..|a + b| - 1] == a + b[..|b| - 1];
      TotalAppend(a, b[..|b| - 1]);
    }
  }

  /** Adding keeps the invariant. */
  lemma AddValid(cart: Cart, item: MenuItem)
    requires Valid(cart)
    ensures Valid(Add(cart, item))
  {
    var r := Add(cart, item);
    if !Has(cart, item.id) {
      assert forall i :: 0 <= i < |cart| ==> r[i] == cart[i];
    }
  }

  /** Removing keeps the invariant. */
  lemma {:induction false} RemoveValid(cart: Cart, id: Scalar)
    requires Valid(cart)
    ensures Valid(Remove(cart, id))
  {
    if cart != [] {
      var init := cart[..|cart| - 1];
      var last := cart[|cart| - 1];
      RemoveValid(init, id);
      var rest := Remove(init, id);
      if last.id != id {
        forall i | 0 <= i < |rest|
          ensures rest[i].id != last.id
        {
          RemoveMembers(init, id, rest[i]);
          var k :| 0 <= k < |init| && init[k] == rest[i];
          assert cart[k] == init[k];
        }
        var r := rest + [last];
        forall i, j | 0 <= i < j < |r|
          ensures r[i].id != r[j].id
        {
          if j == |r| - 1 {
            assert r[i] == rest[i];
          }
        }
        forall i | 0 <= i < |rest|
          ensures rest[i].quantity >= 1
        {
          RemoveMembers(init, id, rest[i]);
        }
      } else {
        forall i | 0 <= i < |rest|
          ensures rest[i].quantity >= 1
        {
          RemoveMembers(init, id, rest[i]);
        }
      }
    }
  }

  /** Setting a positive quantity, or any update, keeps the invariant. */
  lemma UpdateQuantityValid(cart: Cart, id: Scalar, q: int)
    requires Valid(cart)
    ensures Valid(UpdateQuantity(cart, id, q))
  {
    if q <= 0 {
      RemoveValid(cart, id);
    }
  }

  /** Adding raises the total by the item's price when its price agrees with the entry's (a new
      item contributes one unit; an existing one, held once, gains one). */
  lemma AddTotal(cart: Cart, item: MenuItem)
    requires Valid(cart)
    requires forall i :: 0 <= i < |cart| && cart[i].id == item.id ==> cart[i].price == item.price
    ensures Total(Add(cart, item)) == Total(cart) + item.price
  {
    if Has(cart, item.id) {
      var k :| 0 <= k < |cart| && cart[k].id == item.id;
      forall i | 0 <= i < |cart| && i != k
        ensures cart[i].id != item.id
      {
        if i < k {
          assert cart[i].id != cart[k].id;
        } else {
          assert cart[k].id != cart[i].id;
        }
      }
      BumpTotal(cart, item.id, k);
    } else {
      var e := Entry(item.id, item.name, item.price, 1);
      TotalAppend(cart, [e]);
      assert [e][..0] == [];
      assert Total([e]) == Line(e);
    }
  }

  lemma {:induction false} BumpTotal(cart: Cart, id: Scalar, k: nat)
    requires k < |cart| && cart[k].id == id
    requires forall i :: 0 <= i < |cart| && i != k ==> cart[i].id != id
    ensures Total(Bump(cart, id)) == Total(cart) + cart[k].price
  {
    var n := |cart| - 1;
    var init := cart[..n];
    var last := cart[n];
    var b := Bump(cart, id);
    assert b[..n] == Bump(init, id);
    assert Total(b) == Total(Bump(init, id)) + Line(b[n]);
    assert Total(cart) == Total(init) + Line(last);
    if k == n {
      BumpAbsent(init, id);
      LineBump(last);
    } else {
      assert b[n] == last;
      BumpTotal(init, id, k);
    }
  }

  lemma {:induction false} BumpAbsent(cart: Cart, id: Scalar)
    requires forall i :: 0 <= i < |cart| ==> cart[i].id != id
    ensures Bump(cart, id) == cart
  {
  }

  /** Setting the quantity of an id held once to the quantity it already has changes nothing;
      setting it to zero is the same as removing it. */
  lemma UpdateQuantityIdentities(cart: Cart, k: nat)
    requires Valid(cart) && k < |cart|
    ensures UpdateQuantity(cart, cart[k].id, cart[k].quantity) == cart
    ensures UpdateQuantity(cart, cart[k].id, 0) == Remove(cart, cart[k].id)
  {
    var r := UpdateQuantity(cart, cart[k].id, cart[k].quantity);
    assert forall i :: 0 <= i < |cart| ==> r[i] == cart[i] by {
      forall i | 0 <= i < |cart|
        ensures r[i] == cart[i]
      {
        if i != k {
          if i < k {
            assert cart[i].id != cart[k].id;
          } else {
            assert cart[k].id != cart[i].id;
          }
        }
      }
    }
  }
}
