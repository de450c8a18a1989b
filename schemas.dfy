/** Line items and carts as they are persisted, the cart-wide total they must
    agree with, and the first-match product lookup the service uses. */
module Schemas {

  /** A line item of a cart. Prices and quantities are integers. */
  datatype Item = Item(productId: string, name: string, quantity: int, price: int, subTotalPrice: int)

  /** The body of an add request: an item without its subtotal. */
  datatype ItemDto = ItemDto(productId: string, name: string, quantity: int, price: int)

  /** The body of an update request. */
  datatype UpdateQuantityDto = UpdateQuantityDto(productId: string, quantity: int)

  /** One user's cart as the store holds it. */
  datatype Cart = Cart(userId: string, items: seq<Item>, totalPrice: int)

  datatype Option<+T> = None | Some(value: T)

  /** What one line contributes to the cart total: quantity times unit price
      (the stored subtotal is not consulted). */
  function Line(item: Item): (r: int) {
    item.quantity * item.price
  }

  /** Sum of quantity * price over all items, in list order. */
  function Total(items: seq<Item>): (r: int) {
    if items == [] then 0 else Line(items[0]) + Total(items[1..])
  }

  lemma {:induction false} TotalAppend(s: seq<Item>, t: seq<Item>)
    ensures Total(s + t) == Total(s) + Total(t)
  {
    if s == [] {
      assert s + t == t;
    } else {
      assert (s + t)[1..] == s[1..] + t;
      TotalAppend(s[1..], t);
    }
  }

  /** Taking out item i lowers the total by exactly that item's line. */
  lemma TotalWithout(s: seq<Item>, i: int)
    requires 0 <= i < |s|
    ensures Total(s[..i] + s[i+1..]) == Total(s) - Line(s[i])
  {
    assert s == s[..i] + ([s[i]] + s[i+1..]);
    TotalAppend(s[..i], [s[i]] + s[i+1..]);
    TotalAppend([s[i]], s[i+1..]);
    TotalAppend(s[..i], s[i+1..]);
  }

  /** Replacing item i changes the total by the difference of the two lines. */
  lemma TotalReplace(s: seq<Item>, i: int, x: Item)
    requires 0 <= i < |s|
    ensures Total(s[i := x]) == Total(s) - Line(s[i]) + Line(x)
  {
    assert s[i := x] == s[..i] + ([x] + s[i+1..]);
    TotalAppend(s[..i], [x] + s[i+1..]);
    TotalAppend([x], s[i+1..]);
    TotalWithout(s, i);
    TotalAppend(s[..i], s[i+1..]);
  }

  /** Some item carries this product id. */
  predicate Contains(items: seq<Item>, productId: string) {
    exists j :: 0 <= j < |items| && items[j].productId == productId
  }

  /** No two items share a product id. */
  predicate UniqueIds(items: seq<Item>) {
    forall i, j :: 0 <= i < j < |items| ==> items[i].productId != items[j].productId
  }

  /** Every subtotal is quantity * price and the total is their sum. */
  predicate Consistent(cart: Cart) {
    && cart.totalPrice == Total(cart.items)
    && forall j :: 0 <= j < |cart.items| ==> cart.items[j].subTotalPrice == Line(cart.items[j])
  }

  /** The aggregate invariants: consistent totals and unique product ids. */
  predicate WellFormed(cart: Cart) {
    Consistent(cart) && UniqueIds(cart.items)
  }

  /** The position of the first item with this product id, or -1 if none has it
      (Array.prototype.findIndex with an id-equality test). */
  function GetItemIndex(items: seq<Item>, productId: string): (r: int)
    ensures -1 <= r < |items|
    ensures r >= 0 ==> items[r].productId == productId
    ensures r >= 0 ==> forall j :: 0 <= j < r ==> items[j].productId != productId
    ensures r == -1 <==> !Contains(items, productId)
  {
    if items == [] then -1
    else if items[0].productId == productId then 0
    else
      var k := GetItemIndex(items[1..], productId);
      assert forall j :: 0 < j < |items| ==> items[j] == items[1..][j - 1];
      if k < 0 then -1 else k + 1
  }
}
