/** The price summary beside the checkout: subtotal, the calculated total with tax and service
    charge, the choice between the server's total and the calculated one, and the item label. */
module CheckoutSummary {
  import opened Wrappers
  import opened Text
  import opened CheckoutApi

  const TaxRate: real := 0.1
  const ServiceCharge: real := 2000.0

  /** `item.menu.price * item.quantity`. */
  function LineTotal(item: CheckoutItem): real {
    item.menu.price * (item.quantity as real)
  }

  /** `cartItems.reduce((sum, item) => sum + item.menu.price * item.quantity, 0)`. */
  function Subtotal(items: seq<CheckoutItem>): real {
    if items == [] then 0.0 else Subtotal(items[..|items| - 1]) + LineTotal(items[|items| - 1])
  }

  /** `subtotal + subtotal * 0.1 + 2000`. */
  function CalculatedTotal(items: seq<CheckoutItem>): real {
    Subtotal(items) + Subtotal(items) * TaxRate + ServiceCharge
  }

  /** `totalPrice || calculatedTotal`, with the parameter defaulting to 0: an absent or zero
      server total falls back to the calculated one. */
  function FinalTotal(items: seq<CheckoutItem>, totalPrice: Option<real>): (r: real)
    ensures totalPrice.Some? && totalPrice.value != 0.0 ==> r == totalPrice.value
    ensures (totalPrice.None? || totalPrice.value == 0.0) ==> r == CalculatedTotal(items)
  {
    if totalPrice.Some? && totalPrice.value != 0.0 then totalPrice.value else CalculatedTotal(items)
  }

  /** The subtotal of a concatenation is the sum of the subtotals. */
  lemma {:induction false} SubtotalAppend(a: seq<CheckoutItem>, b: seq<CheckoutItem>)
    ensures Subtotal(a + b) == Subtotal(a) + Subtotal(b)
  {
    if b == [] {
      assert a + b == a;
    } else {
      assert (a + b)[..|a + b| - 1] == a + b[..|b| - 1];
      SubtotalAppend(a, b[..|b| - 1]);
    }
  }

  /** With prices and quantities that are not negative the subtotal is not negative, and the
      calculated total is at least the service charge plus the subtotal. */
  lemma {:induction false} CalculatedTotalBounds(items: seq<CheckoutItem>)
    requires forall i :: 0 <= i < |items| ==> items[i].menu.price >= 0.0 && items[i].quantity >= 0
    ensures Subtotal(items) >= 0.0
    ensures CalculatedTotal(items) >= Subtotal(items) + ServiceCharge
  {
    if items != [] {
      CalculatedTotalBounds(items[..|items| - 1]);
      var last := items[|items| - 1];
      assert LineTotal(last) >= 0.0 by {
        assert last.menu.price >= 0.0 && (last.quantity as real) >= 0.0;
      }
    }
  }

  /** `{itemCount} item{itemCount !== 1 ? 's' : ''}`. */
  function ItemLabel(itemCount: int): string {
    IntToString(itemCount) + " item" + (if itemCount != 1 then "s" else "")
  }

  /** The label is plural exactly when the count is not one. */
  lemma ItemLabelPlural(itemCount: int)
    ensures var l := ItemLabel(itemCount); l[|l| - 1] == 's' <==> itemCount != 1
  {
  }

  /** What the summary shows: the compact form only the count and the final total; the full
      form every line total, the subtotal and the final total. */
  datatype Shown =
    | Compact(itemCount: int, total: real)
    | Detailed(itemCount: int, lineTotals: seq<real>, subtotal: real, total: real)

  function Render(items: seq<CheckoutItem>, totalPrice: Option<real>, itemCount: int, showDetails: bool): (r: Shown)
    ensures r.total == FinalTotal(items, totalPrice) && r.itemCount == itemCount
    ensures r.Compact? <==> !showDetails
    ensures r.Detailed? ==> |r.lineTotals| == |items| && r.subtotal == Subtotal(items)
                            && forall i :: 0 <= i < |items| ==> r.lineTotals[i] == LineTotal(items[i])
  {
    if !showDetails then Compact(itemCount, FinalTotal(items, totalPrice))
    else Detailed(itemCount, seq(|items|, i requires 0 <= i < |items| => LineTotal(items[i])), Subtotal(items),
                  FinalTotal(items, totalPrice))
  }

  /** The line totals shown in the full form add up to the subtotal it shows. */
  lemma {:induction false} LineTotalsAddUp(items: seq<CheckoutItem>)
    ensures var r := Render(items, None, |items|, true);
            SumReals(r.lineTotals) == r.subtotal
  {
    var r := Render(items, None, |items|, true);
    LineTotalsSum(items, r.lineTotals);
  }

  function SumReals(xs: seq<real>): real {
    if xs == [] then 0.0 else SumReals(xs[..|xs| - 1]) + xs[|xs| - 1]
  }

  lemma {:induction false} LineTotalsSum(items: seq<CheckoutItem>, totals: seq<real>)
    requires |totals| == |items| && forall i :: 0 <= i < |items| ==> totals[i] == LineTotal(items[i])
    ensures SumReals(totals) == Subtotal(items)
  {
    if items != [] {
      LineTotalsSum(items[..|items| - 1], totals[..|totals| - 1]);
    }
  }
}
