/** What the cart page renders from its item list. */
module View {
  import opened Cart
  import opened Totals

  /** The page: the empty-cart notice, or the cart with its header count, the
      "You have N items" label, and the order-summary total. */
  datatype Page =
    | EmptyCartPage
    | CartPage(cartCount: int, lineCount: nat, lineTotals: seq<Paise>, orderTotal: Paise)

  /** Renders the page. The subtotal is taken as already recomputed for this list;
      the header count and the subtotal come from the page's own running sums. */
  method Render(items: seq<CartItem>) returns (page: Page)
    ensures page.EmptyCartPage? <==> |items| == 0
    ensures page.CartPage? ==> page.cartCount == ItemCount(items)
    ensures page.CartPage? ==> page.lineCount == |items|
    ensures page.CartPage? ==> |page.lineTotals| == |items|
    ensures page.CartPage? ==> forall k :: 0 <= k < |items| ==> page.lineTotals[k] == items[k].totalPrice
    ensures page.CartPage? ==> page.orderTotal == Subtotal(items) + 37000
  {
    if |items| == 0 {
      return EmptyCartPage;
    }
    var subtotal := ComputeSubtotal(items);
    var count := TotalProducts(items);
    var shown := seq(|items|, k requires 0 <= k < |items| => items[k].totalPrice);
    page := CartPage(count, |items|, shown, GrandTotal(subtotal));
  }
}
