/**
 * The cart page's two mutation handlers, each as one atomic transition of the
 * item list. The HTTP call a handler makes is reduced to the request it sends
 * and the reply it gets back; the list changes only after the server confirms.
 */
module Handlers {
  import opened Cart
  import opened Totals

  /** What came back from a request: an HTTP status, or a thrown network error. */
  datatype Reply = Status(code: int) | NetworkError

  /** The fetch API's `response.ok`: a status in the range 200-299. */
  predicate IsOk(reply: Reply)
  {
    reply.Status? && 200 <= reply.code <= 299
  }

  /** The request a handler sends to the cart service. */
  datatype Request =
    | DeleteItem(username: string, productId: ProductId)
    | UpdateQuantity(username: string, productId: ProductId, quantity: int)

  /** The item list after a handler has run, and the request it sent. */
  datatype Step = Step(items: seq<CartItem>, sent: Request)

  /** handleRemoveItem: send a delete; drop the product's lines only on status 204
      exactly. Any other status, including other 2xx codes, and a network error
      leave the list as it was. */
  function RemoveItem(items: seq<CartItem>, username: string, id: ProductId, reply: Reply): (s: Step)
    ensures s.sent == DeleteItem(username, id)
    ensures reply == Status(204) ==> forall k :: 0 <= k < |s.items| ==> s.items[k].productId != id
    ensures reply == Status(204) ==> forall it :: it in items && it.productId != id ==> it in s.items
    ensures reply == Status(204) ==> forall it :: it in s.items ==> it in items
    ensures reply == Status(204) ==> s.items == Without(items, id)
    ensures reply != Status(204) ==> s.items == items
  {
    var next := if reply == Status(204) then Without(items, id) else items;
    Step(next, DeleteItem(username, id))
  }

  /** handleQuantityChange: a new quantity of 0 or less is a removal; otherwise send
      an update and, on an ok reply, give the product's lines the new quantity and
      a line total recomputed from their unit price. */
  function ChangeQuantity(items: seq<CartItem>, username: string, id: ProductId, newQuantity: int, reply: Reply): (s: Step)
    ensures newQuantity <= 0 ==> s == RemoveItem(items, username, id, reply)
    ensures newQuantity > 0 ==> s.sent == UpdateQuantity(username, id, newQuantity)
    ensures newQuantity > 0 && IsOk(reply) ==> |s.items| == |items|
    ensures newQuantity > 0 && IsOk(reply) ==>
              forall k :: 0 <= k < |items| && items[k].productId != id ==> s.items[k] == items[k]
    ensures newQuantity > 0 && IsOk(reply) ==>
              forall k :: 0 <= k < |items| && items[k].productId == id ==>
                && s.items[k].quantity == newQuantity
                && s.items[k].totalPrice == items[k].pricePerUnit * newQuantity
                && s.items[k] == items[k].(quantity := s.items[k].quantity, totalPrice := s.items[k].totalPrice)
    ensures newQuantity > 0 && !IsOk(reply) ==> s.items == items
  {
    if newQuantity <= 0 then RemoveItem(items, username, id, reply)
    else
      var next := if IsOk(reply) then SetQuantity(items, id, newQuantity) else items;
      Step(next, UpdateQuantity(username, id, newQuantity))
  }

  /** A confirmed removal keeps the other lines in their original relative order:
      removal from a concatenation is the concatenation of the removals. */
  lemma RemoveKeepsOrder(a: seq<CartItem>, b: seq<CartItem>, username: string, id: ProductId)
    ensures RemoveItem(a + b, username, id, Status(204)).items
         == RemoveItem(a, username, id, Status(204)).items + RemoveItem(b, username, id, Status(204)).items
  {
    WithoutAppend(a, b, id);
  }

  /** A confirmed removal lowers the subtotal by exactly the removed lines' totals
      and the cart count by exactly their quantities. */
  lemma RemoveTotals(items: seq<CartItem>, username: string, id: ProductId)
    ensures var s := RemoveItem(items, username, id, Status(204));
      && Subtotal(s.items) == Subtotal(items) - Subtotal(Matching(items, id))
      && ItemCount(s.items) == ItemCount(items) - ItemCount(Matching(items, id))
  {
    RemovalTotals(items, id);
  }

  /** A confirmed quantity update changes the subtotal and cart count only through
      the updated product's lines, now priced at the new quantity. */
  lemma ChangeQuantityTotals(items: seq<CartItem>, username: string, id: ProductId, newQuantity: int, reply: Reply)
    requires newQuantity > 0 && IsOk(reply)
    ensures var s := ChangeQuantity(items, username, id, newQuantity, reply);
      && Subtotal(s.items) == Subtotal(Without(items, id)) + newQuantity * UnitPriceSum(Matching(items, id))
      && ItemCount(s.items) == ItemCount(Without(items, id)) + newQuantity * |Matching(items, id)|
  {
    SetQuantityTotals(items, id, newQuantity);
  }

  /** Both handlers keep every line total equal to unit price times quantity. */
  lemma HandlersKeepConsistent(items: seq<CartItem>, username: string, id: ProductId, newQuantity: int, reply: Reply)
    requires Consistent(items)
    ensures Consistent(RemoveItem(items, username, id, reply).items)
    ensures Consistent(ChangeQuantity(items, username, id, newQuantity, reply).items)
  {
    if newQuantity > 0 && IsOk(reply) {
      SetQuantityConsistent(items, id, newQuantity);
    }
  }

  /** Pressing "+" on a line of a consistent cart with unique product ids, when the
      server accepts, adds one unit to the cart count and one unit price to the subtotal. */
  lemma IncrementAddsOneUnit(items: seq<CartItem>, username: string, k: nat, reply: Reply)
    requires k < |items| && UniqueIds(items) && Consistent(items)
    requires items[k].quantity + 1 > 0 && IsOk(reply)
    ensures var s := ChangeQuantity(items, username, items[k].productId, items[k].quantity + 1, reply);
      && ItemCount(s.items) == ItemCount(items) + 1
      && Subtotal(s.items) == Subtotal(items) + items[k].pricePerUnit
  {
    var id := items[k].productId;
    var q := items[k].quantity;
    var p := items[k].pricePerUnit;
    var next := SetQuantity(items, id, q + 1);
    assert ChangeQuantity(items, username, id, q + 1, reply).items == next;
    OneLineUpdateTotals(items, k, q + 1);
    assert items[k] in items;
    Distribute(q, 1, p);
  }

  /** Pressing "-" on a line holding one unit (or fewer) sends a delete, never an
      update, and once the server confirms it no line of that product remains. */
  lemma DecrementLastUnitRemoves(items: seq<CartItem>, username: string, k: nat, reply: Reply)
    requires k < |items| && items[k].quantity <= 1
    ensures var s := ChangeQuantity(items, username, items[k].productId, items[k].quantity - 1, reply);
      && s.sent == DeleteItem(username, items[k].productId)
      && (reply == Status(204) ==> forall j :: 0 <= j < |s.items| ==> s.items[j].productId != items[k].productId)
      && (reply == Status(204) ==> |s.items| < |items|)
  {
    var id := items[k].productId;
    var r := Without(items, id);
    assert |Matching(items, id)| > 0;
  }

  /** Removing the only product in the cart empties it, which is when the page
      switches to its empty-cart view. */
  lemma RemoveLastProductEmptiesCart(items: seq<CartItem>, username: string, id: ProductId)
    requires forall it :: it in items ==> it.productId == id
    ensures |RemoveItem(items, username, id, Status(204)).items| == 0
  {
    forall k | 0 <= k < |items| ensures items[k].productId == id {
      assert items[k] in items;
    }
  }
}
