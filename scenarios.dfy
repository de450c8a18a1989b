/** The outcomes the service's unit tests pin down, stated as postconditions
    of calls to the service methods and proved: a store seeded with user1's
    two-item cart (total 5), or an empty one, and one service call each. */
module Scenarios {
  import opened Schemas
  import opened CartSpec
  import opened Repository
  import opened Service

  const ProductOne := Item("product1", "Product 1", 1, 1, 1)
  const ProductTwo := Item("product2", "Product 2", 2, 2, 4)
  const ProductThree := Item("product3", "Product 3", 3, 3, 9)
  const UserOneCart := Cart("user1", [ProductOne, ProductTwo], 5)

  /** The request that adds an item as it stands. */
  function AsDto(item: Item): (r: ItemDto) {
    ItemDto(item.productId, item.name, item.quantity, item.price)
  }

  lemma TotalOfTwo(a: Item, b: Item)
    ensures Total([a, b]) == Line(a) + Line(b)
  {
    assert [a, b][1..] == [b];
    assert [b][1..] == [];
    assert Total([b]) == Line(b) + Total([]);
  }

  lemma MergeVector()
    ensures AddToCart(Some(UserOneCart), "user1", AsDto(ProductOne))
         == Cart("user1", [ProductOne.(quantity := 2, subTotalPrice := 2), ProductTwo], 6)
  {
    assert GetItemIndex(UserOneCart.items, "product1") == 0;
    TotalOfTwo(ProductOne.(quantity := 2, subTotalPrice := 2), ProductTwo);
  }

  /** product1 as the merge test leaves it: the service writes the merged
      quantity into the loaded item object, which is the shared fixture
      itself, so later tests in the same run see quantity 2. */
  const MergedProductOne := ProductOne.(quantity := 2, subTotalPrice := 2)

  /** The cart the append test loads: its stored total is still 5, but its
      first item is the mutated fixture. */
  const UserOneCartAfterMerge := Cart("user1", [MergedProductOne, ProductTwo], 5)

  lemma AppendVector()
    ensures AddToCart(Some(UserOneCartAfterMerge), "user1", AsDto(ProductThree))
         == Cart("user1", [MergedProductOne, ProductTwo, ProductThree], 15)
  {
    assert "product1" != "product3" && "product2" != "product3";
    assert GetItemIndex(UserOneCartAfterMerge.items, "product3") == -1;
    assert [MergedProductOne, ProductTwo] + [ProductThree] == [MergedProductOne, ProductTwo, ProductThree];
    TotalAppend([MergedProductOne, ProductTwo], [ProductThree]);
    TotalOfTwo(MergedProductOne, ProductTwo);
    assert Total([ProductThree]) == Line(ProductThree) + Total([]);
  }

  lemma RemoveVector()
    ensures RemoveFromCart(Some(UserOneCart), "product1") == Saved(Cart("user1", [ProductTwo], 4))
    ensures RemoveFromCart(Some(UserOneCart), "product3") == NotFound
  {
    assert "product1" != "product3" && "product2" != "product3";
    assert GetItemIndex(UserOneCart.items, "product1") == 0;
    assert UserOneCart.items[..0] + UserOneCart.items[1..] == [ProductTwo];
    assert Total([ProductTwo]) == Line(ProductTwo) + Total([]);
  }

  lemma UpdateVector(quantity: int)
    ensures UpdateQuantity(Some(UserOneCart), "product1", quantity)
         == Saved(Cart("user1", [ProductOne.(quantity := Clamp(quantity), subTotalPrice := Clamp(quantity)), ProductTwo],
                       4 + Clamp(quantity)))
    ensures UpdateQuantity(Some(UserOneCart), "product3", quantity) == NotFound
  {
    assert "product1" != "product3" && "product2" != "product3";
    assert GetItemIndex(UserOneCart.items, "product1") == 0;
    TotalOfTwo(ProductOne.(quantity := Clamp(quantity), subTotalPrice := Clamp(quantity)), ProductTwo);
  }

  /** A service over a store holding only the given cart. */
  method SeededService(cart: Cart) returns (service: CartService)
    ensures fresh(service) && fresh(service.cartRepository)
    ensures service.cartRepository.Valid()
    ensures service.cartRepository.carts == map[cart.userId := cart]
    ensures service.cartRepository.log == [CreateCartCall(cart.userId, cart.items, cart.totalPrice)]
  {
    var repo := new CartRepository();
    var _ := repo.CreateCart(cart.userId, cart.items, cart.totalPrice);
    service := new CartService(repo);
  }

  /** user2 has no cart: one is created holding product3 alone, total 9,
      by one getCart and one createCart call and no save. */
  method CreateScenario() returns (r: Cart, stored: map<string, Cart>, ghost calls: seq<StoreCall>)
    ensures r == Cart("user2", [ProductThree], 9)
    ensures stored == map["user2" := r]
    ensures calls == [GetCartCall("user2"), CreateCartCall("user2", [ProductThree], 9)]
  {
    var repo := new CartRepository();
    var service := new CartService(repo);
    r := service.AddItemToCart("user2", AsDto(ProductThree));
    stored, calls := repo.carts, repo.log;
  }

  /** Adding product1 again doubles its quantity: subtotal 2, total 6, with
      one getCart and one save. */
  method MergeScenario() returns (r: Cart, stored: map<string, Cart>, ghost calls: seq<StoreCall>)
    ensures r == Cart("user1", [ProductOne.(quantity := 2, subTotalPrice := 2), ProductTwo], 6)
    ensures stored == map["user1" := r]
    ensures calls == [GetCartCall("user1"), SaveCall(r)]
  {
    var service := SeededService(UserOneCart);
    MergeVector();
    r := service.AddItemToCart("user1", AsDto(ProductOne));
    stored, calls := service.cartRepository.carts, service.cartRepository.log[1..];
  }

  /** Adding product3 appends it after the earlier items: total 15, counting
      product1 at the quantity the merge test left it with; one getCart and
      one save. */
  method AppendScenario() returns (r: Cart, stored: map<string, Cart>, ghost calls: seq<StoreCall>)
    ensures r == Cart("user1", [MergedProductOne, ProductTwo, ProductThree], 15)
    ensures stored == map["user1" := r]
    ensures calls == [GetCartCall("user1"), SaveCall(r)]
  {
    var service := SeededService(UserOneCartAfterMerge);
    AppendVector();
    r := service.AddItemToCart("user1", AsDto(ProductThree));
    stored, calls := service.cartRepository.carts, service.cartRepository.log[1..];
  }

  /** Removing product3, which the cart lacks, reports NotFound; only
      getCart is called, so nothing is written. */
  method RemoveAbsentScenario() returns (r: Outcome, stored: map<string, Cart>, ghost calls: seq<StoreCall>)
    ensures r == NotFound
    ensures stored == map["user1" := UserOneCart]
    ensures calls == [GetCartCall("user1")]
  {
    var service := SeededService(UserOneCart);
    RemoveVector();
    ghost var log0 := service.cartRepository.log;
    r := service.RemoveItemFromCart("user1", "product3");
    assert r == NotFound;
    assert service.cartRepository.log == log0 + [GetCartCall("user1")];
    stored, calls := service.cartRepository.carts, service.cartRepository.log[1..];
  }

  /** Removing product1 leaves product2 alone: total 4, with one getCart and
      one save. */
  method RemoveScenario() returns (r: Outcome, stored: map<string, Cart>, ghost calls: seq<StoreCall>)
    ensures r == Saved(Cart("user1", [ProductTwo], 4))
    ensures stored == map["user1" := r.cart]
    ensures calls == [GetCartCall("user1"), SaveCall(r.cart)]
  {
    var service := SeededService(UserOneCart);
    RemoveVector();
    ghost var log0 := service.cartRepository.log;
    r := service.RemoveItemFromCart("user1", "product1");
    assert r.Saved?;
    assert service.cartRepository.log == log0 + [GetCartCall("user1"), SaveCall(r.cart)];
    stored, calls := service.cartRepository.carts, service.cartRepository.log[1..];
  }

  /** Updating product3, which the cart lacks, reports NotFound; only
      getCart is called, so nothing is written. */
  method UpdateAbsentScenario() returns (r: Outcome, stored: map<string, Cart>, ghost calls: seq<StoreCall>)
    ensures r == NotFound
    ensures stored == map["user1" := UserOneCart]
    ensures calls == [GetCartCall("user1")]
  {
    var service := SeededService(UserOneCart);
    UpdateVector(1);
    r := service.UpdateItemQuantity("user1", UpdateQuantityDto("product3", 1));
    stored, calls := service.cartRepository.carts, service.cartRepository.log[1..];
  }

  /** Setting product1's quantity to 10: subtotal 10, price kept, total 14,
      with one getCart and one save. */
  method UpdateScenario() returns (r: Outcome, stored: map<string, Cart>, ghost calls: seq<StoreCall>)
    ensures r == Saved(Cart("user1", [ProductOne.(quantity := 10, subTotalPrice := 10), ProductTwo], 14))
    ensures stored == map["user1" := r.cart]
    ensures calls == [GetCartCall("user1"), SaveCall(r.cart)]
  {
    var service := SeededService(UserOneCart);
    UpdateVector(10);
    r := service.UpdateItemQuantity("user1", UpdateQuantityDto("product1", 10));
    stored, calls := service.cartRepository.carts, service.cartRepository.log[1..];
  }

  /** A negative quantity is floored at 0: product1 stays with subtotal 0 and
      the total drops to 4. */
  method ClampScenario() returns (r: Outcome)
    ensures r == Saved(Cart("user1", [ProductOne.(quantity := 0, subTotalPrice := 0), ProductTwo], 4))
  {
    var service := SeededService(UserOneCart);
    UpdateVector(-3);
    r := service.UpdateItemQuantity("user1", UpdateQuantityDto("product1", -3));
  }

  /** Deleting user2's cart, which does not exist, reports None after one
      deleteCart call. */
  method DeleteAbsentScenario() returns (r: Option<Cart>, stored: map<string, Cart>, ghost calls: seq<StoreCall>)
    ensures r == None
    ensures stored == map["user1" := UserOneCart]
    ensures calls == [DeleteCartCall("user2")]
  {
    var service := SeededService(UserOneCart);
    assert "user2" != "user1";
    r := service.DeleteCart("user2");
    stored, calls := service.cartRepository.carts, service.cartRepository.log[1..];
  }

  /** Deleting user1's cart returns it and empties the store, after one
      deleteCart call. */
  method DeleteScenario() returns (r: Option<Cart>, stored: map<string, Cart>, ghost calls: seq<StoreCall>)
    ensures r == Some(UserOneCart)
    ensures stored == map[]
    ensures calls == [DeleteCartCall("user1")]
  {
    var service := SeededService(UserOneCart);
    r := service.DeleteCart("user1");
    stored, calls := service.cartRepository.carts, service.cartRepository.log[1..];
  }
}
