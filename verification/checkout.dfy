/** The order-creation request body the cart page builds at checkout: a snapshot
    of the cart's lines and its subtotal. */
module Checkout {
  import opened Sums
  import opened Cart
  import opened Totals

  /** One line of the snapshot: product, quantity and unit price. */
  datatype OrderLine = OrderLine(productId: ProductId, quantity: int, price: Paise)

  /** The body sent to create a payment order. */
  datatype CreateOrderBody = CreateOrderBody(totalAmount: Paise, cartItems: seq<OrderLine>)

  function OrderLineOf(item: CartItem): OrderLine
  {
    OrderLine(item.productId, item.quantity, item.pricePerUnit)
  }

  /** The snapshot lines, one per cart line. */
  function OrderLines(items: seq<CartItem>): (r: seq<OrderLine>)
    ensures |r| == |items|
    ensures forall k :: 0 <= k < |items| ==>
              && r[k].productId == items[k].productId
              && r[k].quantity == items[k].quantity
              && r[k].price == items[k].pricePerUnit
  {
    if |items| == 0 then [] else [OrderLineOf(items[0])] + OrderLines(items[1..])
  }

  /** What a line of the snapshot is worth at its own price and quantity. */
  function LineValue(line: OrderLine): Paise { line.price * line.quantity }

  /** The value of the snapshot lines, as a receiver could recompute it. */
  function OrderValue(lines: seq<OrderLine>): Paise { Sum(lines, LineValue) }

  /** handleCheckout's request body: the subtotal the page derived and one entry per
      cart line, in cart order. */
  method BuildCreateOrderBody(items: seq<CartItem>) returns (body: CreateOrderBody)
    ensures body.totalAmount == Subtotal(items)
    ensures |items| == 0 ==> body.totalAmount == 0
    ensures |body.cartItems| == |items|
    ensures forall k :: 0 <= k < |items| ==>
              && body.cartItems[k].productId == items[k].productId
              && body.cartItems[k].quantity == items[k].quantity
              && body.cartItems[k].price == items[k].pricePerUnit
  {
    var subtotal := ComputeSubtotal(items);
    body := CreateOrderBody(subtotal, OrderLines(items));
  }

  /** When every line total agrees with unit price times quantity, the snapshot's
      total equals the value of its own lines: the order prices itself. */
  lemma {:induction false} ConsistentSnapshotPricesItself(items: seq<CartItem>)
    requires Consistent(items)
    ensures Subtotal(items) == OrderValue(OrderLines(items))
  {
    if |items| > 0 {
      assert items[0] in items;
      assert Consistent(items[1..]) by {
        forall it | it in items[1..] ensures it.totalPrice == it.pricePerUnit * it.quantity {
          assert it in items;
        }
      }
      ConsistentSnapshotPricesItself(items[1..]);
      var lines := OrderLines(items);
      assert lines == [OrderLineOf(items[0])] + OrderLines(items[1..]);
      assert lines[1..] == OrderLines(items[1..]);
    }
  }

  /** The snapshot keeps cart order: the snapshot of a concatenation is the
      concatenation of the snapshots. */
  lemma {:induction false} OrderLinesAppend(a: seq<CartItem>, b: seq<CartItem>)
    ensures OrderLines(a + b) == OrderLines(a) + OrderLines(b)
  {
    if |a| > 0 {
      assert (a + b)[1..] == a[1..] + b;
      OrderLinesAppend(a[1..], b);
    } else {
      assert a + b == b;
    }
  }
}
