/** The derived figures the cart page shows: subtotal, item count, shipping and
    grand total. All amounts are in paise. */
module Totals {
  import opened Sums
  import opened Cart

  function LineTotalOf(item: CartItem): Paise { item.totalPrice }
  function QuantityOf(item: CartItem): int { item.quantity }
  function UnitPriceOf(item: CartItem): Paise { item.pricePerUnit }

  /** The sum of the line totals. */
  function Subtotal(items: seq<CartItem>): Paise { Sum(items, LineTotalOf) }

  /** The number of units in the cart, shown as the header's cart count. */
  function ItemCount(items: seq<CartItem>): int { Sum(items, QuantityOf) }

  /** The sum of the unit prices. */
  function UnitPriceSum(items: seq<CartItem>): Paise { Sum(items, UnitPriceOf) }

  /** The flat shipping charge: 5.0 * 74 rupees, that is 370.00 rupees. */
  const ShippingPaise: Paise := 5 * 74 * 100

  /** The order-summary total: subtotal plus the 370.00-rupee shipping charge. */
  function GrandTotal(subtotal: Paise): (r: Paise)
    ensures r == subtotal + 37000
  {
    subtotal + ShippingPaise
  }

  /** The page's subtotal effect: a left-to-right running sum of the line totals. */
  method ComputeSubtotal(items: seq<CartItem>) returns (total: Paise)
    ensures total == Subtotal(items)
    ensures |items| == 0 ==> total == 0
  {
    total := 0;
    var i := 0;
    while i < |items|
      invariant 0 <= i <= |items|
      invariant total == Subtotal(items[..i])
    {
      SumSnoc(items[..i], items[i], LineTotalOf);
      assert items[..i + 1] == items[..i] + [items[i]];
      total := total + items[i].totalPrice;
      i := i + 1;
    }
    assert items[..i] == items;
  }

  /** The page's totalProducts: a left-to-right running sum of the quantities. */
  method TotalProducts(items: seq<CartItem>) returns (count: int)
    ensures count == ItemCount(items)
    ensures |items| == 0 ==> count == 0
  {
    count := 0;
    var i := 0;
    while i < |items|
      invariant 0 <= i <= |items|
      invariant count == ItemCount(items[..i])
    {
      SumSnoc(items[..i], items[i], QuantityOf);
      assert items[..i + 1] == items[..i] + [items[i]];
      count := count + items[i].quantity;
      i := i + 1;
    }
    assert items[..i] == items;
  }

  /** Any sum over the cart splits into the lines kept by a removal and the lines it drops. */
  lemma {:induction false} SumPartition(items: seq<CartItem>, id: ProductId, f: CartItem -> int)
    ensures Sum(items, f) == Sum(Without(items, id), f) + Sum(Matching(items, id), f)
  {
    if |items| > 0 {
      SumPartition(items[1..], id, f);
      if items[0].productId == id {
        SumAppend([items[0]], Matching(items[1..], id), f);
      } else {
        SumAppend([items[0]], Without(items[1..], id), f);
      }
    }
  }

  /** Removing a product lowers the subtotal by exactly that product's line totals,
      and the item count by exactly its quantities. */
  lemma RemovalTotals(items: seq<CartItem>, id: ProductId)
    ensures Subtotal(Without(items, id)) == Subtotal(items) - Subtotal(Matching(items, id))
    ensures ItemCount(Without(items, id)) == ItemCount(items) - ItemCount(Matching(items, id))
  {
    SumPartition(items, id, LineTotalOf);
    SumPartition(items, id, QuantityOf);
  }

  /** Lines that all carry the updated product contribute unit price times the new quantity. */
  lemma {:induction false} RepricedTotals(m: seq<CartItem>, id: ProductId, quantity: int)
    requires forall it :: it in m ==> it.productId == id
    ensures Subtotal(SetQuantity(m, id, quantity)) == quantity * UnitPriceSum(m)
    ensures ItemCount(SetQuantity(m, id, quantity)) == quantity * |m|
  {
    if |m| > 0 {
      assert m[0] in m;
      var s := SetQuantity(m, id, quantity);
      var rest := SetQuantity(m[1..], id, quantity);
      assert s == [Reprice(m[0], id, quantity)] + rest;
      assert s[1..] == rest;
      forall it | it in m[1..] ensures it.productId == id {
        assert it in m;
      }
      RepricedTotals(m[1..], id, quantity);
      var p := m[0].pricePerUnit;
      assert Subtotal(s) == p * quantity + Subtotal(rest);
      assert UnitPriceSum(m) == p + UnitPriceSum(m[1..]);
      Distribute(quantity, p, UnitPriceSum(m[1..]));
      assert ItemCount(s) == quantity + ItemCount(rest);
      Distribute(quantity, 1, |m[1..]|);
    }
  }

  lemma Distribute(q: int, a: int, b: int)
    ensures q * (a + b) == a * q + q * b
    ensures (q + a) * b == q * b + a * b
  {
  }

  lemma SingleLineTotals(it: CartItem)
    ensures Subtotal([it]) == it.totalPrice
    ensures ItemCount([it]) == it.quantity
    ensures UnitPriceSum([it]) == it.pricePerUnit
  {
    assert [it][1..] == [];
    assert Sum([it], LineTotalOf) == LineTotalOf(it) + Sum([], LineTotalOf);
    assert Sum([it], QuantityOf) == QuantityOf(it) + Sum([], QuantityOf);
    assert Sum([it], UnitPriceOf) == UnitPriceOf(it) + Sum([], UnitPriceOf);
  }

  /** After a quantity update, the subtotal is the untouched lines' total plus the new
      quantity times the touched lines' unit prices; likewise for the item count. */
  lemma SetQuantityTotals(items: seq<CartItem>, id: ProductId, quantity: int)
    ensures Subtotal(SetQuantity(items, id, quantity))
         == Subtotal(Without(items, id)) + quantity * UnitPriceSum(Matching(items, id))
    ensures ItemCount(SetQuantity(items, id, quantity))
         == ItemCount(Without(items, id)) + quantity * |Matching(items, id)|
  {
    var s := SetQuantity(items, id, quantity);
    SumPartition(s, id, LineTotalOf);
    SumPartition(s, id, QuantityOf);
    WithoutAfterSetQuantity(items, id, quantity);
    MatchingAfterSetQuantity(items, id, quantity);
    RepricedTotals(Matching(items, id), id, quantity);
  }

  /** With unique product ids, a quantity update replaces one line's contribution:
      its line total by unit price times the new quantity, its quantity by the new one. */
  lemma OneLineUpdateTotals(items: seq<CartItem>, k: nat, quantity: int)
    requires UniqueIds(items) && k < |items|
    ensures var next := SetQuantity(items, items[k].productId, quantity);
      && Subtotal(next) == Subtotal(items) - items[k].totalPrice + quantity * items[k].pricePerUnit
      && ItemCount(next) == ItemCount(items) - items[k].quantity + quantity
  {
    var id := items[k].productId;
    var m := Matching(items, id);
    assert m == [items[k]] by {
      MatchingUnique(items, k);
    }
    SingleLineSubtotal(items, id, items[k], quantity);
    SingleLineCount(items, id, items[k], quantity);
  }

  lemma SingleLineSubtotal(items: seq<CartItem>, id: ProductId, it: CartItem, quantity: int)
    requires Matching(items, id) == [it]
    ensures Subtotal(SetQuantity(items, id, quantity)) == Subtotal(items) - it.totalPrice + quantity * it.pricePerUnit
  {
    SingleLineTotals(it);
    RemovalTotals(items, id);
    SetQuantityTotals(items, id, quantity);
  }

  lemma SingleLineCount(items: seq<CartItem>, id: ProductId, it: CartItem, quantity: int)
    requires Matching(items, id) == [it]
    ensures ItemCount(SetQuantity(items, id, quantity)) == ItemCount(items) - it.quantity + quantity
  {
    var m := Matching(items, id);
    assert |m| == 1;
    assert ItemCount(m) == it.quantity by {
      SingleLineTotals(it);
    }
    assert ItemCount(Without(items, id)) == ItemCount(items) - it.quantity by {
      RemovalTotals(items, id);
    }
    assert ItemCount(SetQuantity(items, id, quantity)) == ItemCount(Without(items, id)) + quantity * |m| by {
      SetQuantityTotals(items, id, quantity);
    }
  }
}
