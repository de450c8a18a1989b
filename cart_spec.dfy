/** What each cart operation does to the stored cart, as functions of the cart
    loaded for the user, and the laws those operations obey. The imperative
    service in module Service is proved to produce exactly these results. */
module CartSpec {
  import opened Schemas

  /** The result of remove and update. NotFound is the source's `undefined`
      (no item with that product id); MissingCart is the crash that follows
      from reading `items` of the null cart the store returns for a user
      without one. */
  datatype Outcome = Saved(cart: Cart) | NotFound | MissingCart

  /** The line item built from an add request: the request's fields plus
      subtotal quantity * price. */
  function NewItem(dto: ItemDto): (r: Item) {
    Item(dto.productId, dto.name, dto.quantity, dto.price, dto.quantity * dto.price)
  }

  /** Item i with a new quantity and its subtotal recomputed from the item's
      own stored price. */
  function WithQuantity(items: seq<Item>, i: int, quantity: int): (r: seq<Item>)
    requires 0 <= i < |items|
  {
    items[i := items[i].(quantity := quantity, subTotalPrice := quantity * items[i].price)]
  }

  /** A requested quantity floored at 0. */
  function Clamp(quantity: int): (r: int) {
    if quantity > 0 then quantity else 0
  }

  /** Every cart in the store satisfies the aggregate invariants. */
  predicate StoreWellFormed(carts: map<string, Cart>) {
    forall u :: u in carts ==> WellFormed(carts[u])
  }

  /** The cart addItemToCart leaves in the store. */
  function AddToCart(stored: Option<Cart>, userId: string, dto: ItemDto): (r: Cart) {
    match stored
    case None => Cart(userId, [NewItem(dto)], dto.quantity * dto.price)
    case Some(c) =>
      var i := GetItemIndex(c.items, dto.productId);
      var items := if i >= 0 then WithQuantity(c.items, i, c.items[i].quantity + dto.quantity)
                   else c.items + [NewItem(dto)];
      Cart(c.userId, items, Total(items))
  }

  /** What removeItemFromCart reports. */
  function RemoveFromCart(stored: Option<Cart>, productId: string): (r: Outcome) {
    match stored
    case None => MissingCart
    case Some(c) =>
      var i := GetItemIndex(c.items, productId);
      if i >= 0 then
        var items := c.items[..i] + c.items[i+1..];
        Saved(Cart(c.userId, items, Total(items)))
      else NotFound
  }

  /** What updateItemQuantity reports. */
  function UpdateQuantity(stored: Option<Cart>, productId: string, quantity: int): (r: Outcome) {
    match stored
    case None => MissingCart
    case Some(c) =>
      var i := GetItemIndex(c.items, productId);
      if i >= 0 then
        var items := WithQuantity(c.items, i, Clamp(quantity));
        Saved(Cart(c.userId, items, Total(items)))
      else NotFound
  }

  /** Ids do not change when only quantities and subtotals do. */
  lemma WithQuantityKeepsIds(items: seq<Item>, i: int, quantity: int)
    requires 0 <= i < |items|
    ensures |WithQuantity(items, i, quantity)| == |items|
    ensures forall j :: 0 <= j < |items| ==> WithQuantity(items, i, quantity)[j].productId == items[j].productId
    ensures UniqueIds(items) ==> UniqueIds(WithQuantity(items, i, quantity))
  {
  }

  /** Setting a quantity keeps subtotals consistent and moves the total by the
      change in that one line. */
  lemma WithQuantityTotal(c: Cart, i: int, quantity: int)
    requires 0 <= i < |c.items|
    requires Consistent(c)
    ensures Consistent(Cart(c.userId, WithQuantity(c.items, i, quantity), Total(WithQuantity(c.items, i, quantity))))
    ensures Total(WithQuantity(c.items, i, quantity)) == c.totalPrice - Line(c.items[i]) + quantity * c.items[i].price
  {
    var x := c.items[i].(quantity := quantity, subTotalPrice := quantity * c.items[i].price);
    TotalReplace(c.items, i, x);
  }

  /** A user without a cart gets a new one holding just the requested item. */
  lemma CreateOnFirstAdd(userId: string, dto: ItemDto)
    ensures AddToCart(None, userId, dto) == Cart(userId, [NewItem(dto)], dto.quantity * dto.price)
    ensures NewItem(dto).subTotalPrice == dto.quantity * dto.price
    ensures WellFormed(AddToCart(None, userId, dto))
  {
  }

  /** Adding a product already at (first) position i raises that item's
      quantity by the requested amount, recomputes its subtotal with the
      STORED price, leaves every other item and the length alone. */
  lemma MergeLaw(c: Cart, userId: string, dto: ItemDto, i: int)
    requires 0 <= i < |c.items| && c.items[i].productId == dto.productId
    requires forall j :: 0 <= j < i ==> c.items[j].productId != dto.productId
    ensures var r := AddToCart(Some(c), userId, dto);
      && r.userId == c.userId
      && |r.items| == |c.items|
      && r.items[i].productId == c.items[i].productId
      && r.items[i].name == c.items[i].name
      && r.items[i].price == c.items[i].price
      && r.items[i].quantity == c.items[i].quantity + dto.quantity
      && r.items[i].subTotalPrice == r.items[i].quantity * c.items[i].price
      && (forall j :: 0 <= j < |c.items| && j != i ==> r.items[j] == c.items[j])
      && r.totalPrice == Total(r.items)
      && (Consistent(c) ==> r.totalPrice == c.totalPrice + dto.quantity * c.items[i].price)
  {
    assert GetItemIndex(c.items, dto.productId) == i;
    if Consistent(c) {
      WithQuantityTotal(c, i, c.items[i].quantity + dto.quantity);
    }
  }

  /** Adding a product not in the cart appends it, with subtotal
      quantity * price, after the unchanged earlier items; ids stay unique. */
  lemma AppendLaw(c: Cart, userId: string, dto: ItemDto)
    requires !Contains(c.items, dto.productId)
    ensures var r := AddToCart(Some(c), userId, dto);
      && r.userId == c.userId
      && r.items == c.items + [NewItem(dto)]
      && r.items[|c.items|].subTotalPrice == dto.quantity * dto.price
      && r.totalPrice == Total(c.items) + dto.quantity * dto.price
      && (Consistent(c) ==> r.totalPrice == c.totalPrice + dto.quantity * dto.price)
      && (UniqueIds(c.items) ==> UniqueIds(r.items))
  {
    TotalAppend(c.items, [NewItem(dto)]);
    assert Total([NewItem(dto)]) == Line(NewItem(dto)) + Total([]);
  }

  /** addItemToCart keeps the aggregate invariants. */
  lemma AddKeepsWellFormed(stored: Option<Cart>, userId: string, dto: ItemDto)
    requires stored.Some? ==> WellFormed(stored.value)
    ensures WellFormed(AddToCart(stored, userId, dto))
  {
  }

  /** Remove reports the missing cart, and reports NotFound exactly when no
      item has the product id. */
  lemma RemoveNotFound(stored: Option<Cart>, productId: string)
    ensures RemoveFromCart(stored, productId) == MissingCart <==> stored.None?
    ensures stored.Some? ==> (RemoveFromCart(stored, productId) == NotFound <==> !Contains(stored.value.items, productId))
  {
  }

  /** Removing the product at (first) position i drops exactly that item,
      keeps the rest in order and recomputes the total over them. */
  lemma RemoveLaw(c: Cart, productId: string, i: int)
    requires 0 <= i < |c.items| && c.items[i].productId == productId
    requires forall j :: 0 <= j < i ==> c.items[j].productId != productId
    ensures var items := c.items[..i] + c.items[i+1..];
      && RemoveFromCart(Some(c), productId) == Saved(Cart(c.userId, items, Total(items)))
      && |items| == |c.items| - 1
      && (Consistent(c) ==> Total(items) == c.totalPrice - Line(c.items[i]))
      && (UniqueIds(c.items) ==> UniqueIds(items) && !Contains(items, productId))
  {
    var items := c.items[..i] + c.items[i+1..];
    assert GetItemIndex(c.items, productId) == i;
    TotalWithout(c.items, i);
    assert forall j :: 0 <= j < |items| ==> items[j] == c.items[if j < i then j else j + 1];
  }

  /** removeItemFromCart keeps the aggregate invariants. */
  lemma RemoveKeepsWellFormed(c: Cart, productId: string)
    requires WellFormed(c)
    ensures RemoveFromCart(Some(c), productId).Saved? ==> WellFormed(RemoveFromCart(Some(c), productId).cart)
  {
  }

  /** Update reports the missing cart, and reports NotFound exactly when no
      item has the product id. */
  lemma UpdateNotFound(stored: Option<Cart>, productId: string, quantity: int)
    ensures UpdateQuantity(stored, productId, quantity) == MissingCart <==> stored.None?
    ensures stored.Some? ==> (UpdateQuantity(stored, productId, quantity) == NotFound <==> !Contains(stored.value.items, productId))
  {
  }

  /** Updating the product at (first) position i sets its quantity to the
      request floored at 0 (an item set to 0 stays in the cart), recomputes
      its subtotal with its stored price and leaves everything else alone. */
  lemma UpdateLaw(c: Cart, productId: string, quantity: int, i: int)
    requires 0 <= i < |c.items| && c.items[i].productId == productId
    requires forall j :: 0 <= j < i ==> c.items[j].productId != productId
    ensures var o := UpdateQuantity(Some(c), productId, quantity);
      && o.Saved?
      && o.cart.userId == c.userId
      && |o.cart.items| == |c.items|
      && o.cart.items[i].quantity == (if quantity > 0 then quantity else 0)
      && o.cart.items[i].quantity >= 0
      && o.cart.items[i].subTotalPrice == o.cart.items[i].quantity * c.items[i].price
      && o.cart.items[i].price == c.items[i].price
      && o.cart.items[i].productId == productId
      && o.cart.items[i].name == c.items[i].name
      && (forall j :: 0 <= j < |c.items| && j != i ==> o.cart.items[j] == c.items[j])
      && o.cart.totalPrice == Total(o.cart.items)
      && (Consistent(c) ==> o.cart.totalPrice == c.totalPrice - Line(c.items[i]) + o.cart.items[i].quantity * c.items[i].price)
  {
    assert GetItemIndex(c.items, productId) == i;
    if Consistent(c) {
      WithQuantityTotal(c, i, Clamp(quantity));
    }
  }

  /** updateItemQuantity keeps the aggregate invariants. */
  lemma UpdateKeepsWellFormed(c: Cart, productId: string, quantity: int)
    requires WellFormed(c)
    ensures UpdateQuantity(Some(c), productId, quantity).Saved? ==> WellFormed(UpdateQuantity(Some(c), productId, quantity).cart)
  {
  }
}
