/**
 * The cart page's item list and the two pure updates its handlers apply to it.
 *
 * Money is held as integer paise (hundredths of a rupee). The page itself keeps
 * unit prices and line totals as two-decimal strings made by parseFloat/toFixed(2)
 * and adds them as JavaScript doubles; this model states the intended exact
 * two-decimal arithmetic and does not reproduce binary floating-point rounding.
 */
module Cart {

  type ProductId = int

  /** An amount of money in paise: 1 rupee is 100 paise. */
  type Paise = int

  /** One line of the cart, as the server sends it and the page keeps it. */
  datatype CartItem = CartItem(
    productId: ProductId,
    name: string,
    description: string,
    imageUrl: string,
    pricePerUnit: Paise,
    quantity: int,
    totalPrice: Paise)

  /** Every line total agrees with unit price times quantity. The server's
      initial snapshot is not forced to satisfy this; the page's own updates keep it. */
  predicate Consistent(items: seq<CartItem>)
  {
    forall it :: it in items ==> it.totalPrice == it.pricePerUnit * it.quantity
  }

  /** No product appears on two lines. */
  predicate UniqueIds(items: seq<CartItem>)
  {
    forall j, k :: 0 <= j < k < |items| ==> items[j].productId != items[k].productId
  }

  /** The lines whose product id differs from `id`, in their original order:
      the filter a confirmed removal applies. */
  function Without(items: seq<CartItem>, id: ProductId): (r: seq<CartItem>)
    ensures |r| <= |items|
    ensures forall it :: it in r <==> it in items && it.productId != id
    ensures (forall k :: 0 <= k < |items| ==> items[k].productId != id) <==> r == items
    ensures |r| == 0 <==> forall k :: 0 <= k < |items| ==> items[k].productId == id
  {
    if |items| == 0 then []
    else
      assert items == [items[0]] + items[1..];
      if items[0].productId == id then Without(items[1..], id)
      else [items[0]] + Without(items[1..], id)
  }

  /** The lines that carry product `id`, in their original order. */
  function Matching(items: seq<CartItem>, id: ProductId): (r: seq<CartItem>)
    ensures forall it :: it in r <==> it in items && it.productId == id
    ensures |Without(items, id)| + |r| == |items|
    ensures |r| == 0 <==> forall k :: 0 <= k < |items| ==> items[k].productId != id
  {
    if |items| == 0 then []
    else
      assert items == [items[0]] + items[1..];
      if items[0].productId == id then [items[0]] + Matching(items[1..], id)
      else Matching(items[1..], id)
  }

  /** The lines after a confirmed quantity update for product `id`: each matching
      line takes the new quantity and a line total recomputed from its unit price. */
  function SetQuantity(items: seq<CartItem>, id: ProductId, quantity: int): (r: seq<CartItem>)
    ensures |r| == |items|
    ensures forall k :: 0 <= k < |items| && items[k].productId != id ==> r[k] == items[k]
    ensures forall k :: 0 <= k < |items| && items[k].productId == id ==>
              r[k] == items[k].(quantity := quantity, totalPrice := items[k].pricePerUnit * quantity)
  {
    if |items| == 0 then []
    else [Reprice(items[0], id, quantity)] + SetQuantity(items[1..], id, quantity)
  }

  /** One line of the quantity update's map. */
  function Reprice(item: CartItem, id: ProductId, quantity: int): CartItem
  {
    if item.productId == id
    then item.(quantity := quantity, totalPrice := item.pricePerUnit * quantity)
    else item
  }

  /** Filtering keeps relative order: it distributes over concatenation. */
  lemma {:induction false} WithoutAppend(a: seq<CartItem>, b: seq<CartItem>, id: ProductId)
    ensures Without(a + b, id) == Without(a, id) + Without(b, id)
  {
    if |a| == 0 {
      assert a + b == b;
    } else {
      assert (a + b)[0] == a[0];
      assert (a + b)[1..] == a[1..] + b;
      WithoutAppend(a[1..], b, id);
    }
  }

  /** Removing a product twice is the same as removing it once. */
  lemma WithoutIdempotent(items: seq<CartItem>, id: ProductId)
    ensures Without(Without(items, id), id) == Without(items, id)
  {
    var r := Without(items, id);
    forall k | 0 <= k < |r| ensures r[k].productId != id {
      assert r[k] in r;
    }
  }

  /** Removals of two products commute. */
  lemma {:induction false} WithoutCommutes(items: seq<CartItem>, a: ProductId, b: ProductId)
    ensures Without(Without(items, a), b) == Without(Without(items, b), a)
  {
    if |items| > 0 {
      var rest := items[1..];
      WithoutCommutes(rest, a, b);
      if items[0].productId != a && items[0].productId != b {
        WithoutAppend([items[0]], Without(rest, a), b);
        WithoutAppend([items[0]], Without(rest, b), a);
      } else if items[0].productId == a && items[0].productId != b {
        WithoutAppend([items[0]], Without(rest, b), a);
      } else if items[0].productId != a && items[0].productId == b {
        WithoutAppend([items[0]], Without(rest, a), b);
      }
    }
  }

  /** A quantity update followed by removal of the same product is just the removal. */
  lemma {:induction false} WithoutAfterSetQuantity(items: seq<CartItem>, id: ProductId, quantity: int)
    ensures Without(SetQuantity(items, id, quantity), id) == Without(items, id)
  {
    if |items| > 0 {
      var s := SetQuantity(items, id, quantity);
      assert s == [Reprice(items[0], id, quantity)] + SetQuantity(items[1..], id, quantity);
      assert s[1..] == SetQuantity(items[1..], id, quantity);
      WithoutAfterSetQuantity(items[1..], id, quantity);
    }
  }

  /** The lines of the updated product after a quantity update are the old ones, updated. */
  lemma {:induction false} MatchingAfterSetQuantity(items: seq<CartItem>, id: ProductId, quantity: int)
    ensures Matching(SetQuantity(items, id, quantity), id) == SetQuantity(Matching(items, id), id, quantity)
  {
    if |items| > 0 {
      var s := SetQuantity(items, id, quantity);
      assert s == [Reprice(items[0], id, quantity)] + SetQuantity(items[1..], id, quantity);
      assert s[1..] == SetQuantity(items[1..], id, quantity);
      MatchingAfterSetQuantity(items[1..], id, quantity);
      if items[0].productId == id {
        var m := Matching(items[1..], id);
        assert Matching(items, id) == [items[0]] + m;
        assert ([items[0]] + m)[1..] == m;
      }
    }
  }

  /** The later of two quantity updates to one product wins. */
  lemma SetQuantityLastWins(items: seq<CartItem>, id: ProductId, q1: int, q2: int)
    ensures SetQuantity(SetQuantity(items, id, q1), id, q2) == SetQuantity(items, id, q2)
  {
  }

  /** A quantity update preserves, and on the matching lines establishes,
      agreement between line totals and unit price times quantity. */
  lemma SetQuantityConsistent(items: seq<CartItem>, id: ProductId, quantity: int)
    requires Consistent(items)
    ensures Consistent(SetQuantity(items, id, quantity))
  {
    var r := SetQuantity(items, id, quantity);
    forall it | it in r ensures it.totalPrice == it.pricePerUnit * it.quantity {
      var k :| 0 <= k < |r| && r[k] == it;
      assert items[k] in items;
    }
  }

  /** With unique product ids, the lines of one present product are exactly that line. */
  lemma {:induction false} MatchingUnique(items: seq<CartItem>, k: nat)
    requires UniqueIds(items)
    requires k < |items|
    ensures Matching(items, items[k].productId) == [items[k]]
  {
    var id := items[k].productId;
    assert UniqueIds(items[1..]) by {
      forall i, j | 0 <= i < j < |items[1..]|
        ensures items[1..][i].productId != items[1..][j].productId
      {
        assert items[1..][i] == items[i + 1] && items[1..][j] == items[j + 1];
      }
    }
    if k == 0 {
      forall j | 0 <= j < |items[1..]| ensures items[1..][j].productId != id {
        assert items[1..][j] == items[j + 1];
      }
      assert Matching(items[1..], id) == [];
    } else {
      assert items[0].productId != id;
      assert items[1..][k - 1] == items[k];
      MatchingUnique(items[1..], k - 1);
    }
  }
}
