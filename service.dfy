/** The cart domain service: loads a user's cart from the store and, when the
    operation applies, changes the loaded document in place, recomputes its
    total and writes the whole cart back; a remove or update that misses the
    product writes nothing. Each method is proved to leave the store holding the cart that the
    matching function of CartSpec describes, and to make exactly the store
    calls the source makes. */
module Service {
  import opened Schemas
  import opened CartSpec
  import opened Repository

  class CartService {
    const cartRepository: CartRepository

    constructor (cartRepository: CartRepository)
      ensures this.cartRepository == cartRepository
    {
      this.cartRepository := cartRepository;
    }

    /** The cart the store currently holds for a user, if any. */
    function Stored(userId: string): (r: Option<Cart>)
      reads cartRepository
    {
      if userId in cartRepository.carts then Some(cartRepository.carts[userId]) else None
    }

    /** Zeroes the total, then adds quantity * price of every item in turn. */
    method RecalculateCart(cart: CartDocument)
      modifies cart
      ensures cart.totalPrice == Total(cart.items)
      ensures cart.items == old(cart.items) && cart.userId == old(cart.userId)
    {
      cart.totalPrice := 0;
      for i := 0 to |cart.items|
        invariant cart.items == old(cart.items) && cart.userId == old(cart.userId)
        invariant cart.totalPrice == Total(cart.items[..i])
      {
        assert cart.items[..i + 1] == cart.items[..i] + [cart.items[i]];
        TotalAppend(cart.items[..i], [cart.items[i]]);
        cart.totalPrice := cart.totalPrice + cart.items[i].quantity * cart.items[i].price;
      }
      assert cart.items[..|cart.items|] == cart.items;
    }

    /** Sets item itemIndex's quantity and subtotal (from its stored price),
        recomputes the total and saves the document. */
    method UpdateItemQuantityAndSubtotal(cart: CartDocument, itemIndex: int, quantity: int) returns (r: Cart)
      requires cartRepository.Valid()
      requires 0 <= itemIndex < |cart.items|
      modifies cart, cartRepository
      ensures cartRepository.Valid()
      ensures r == Cart(old(cart.userId), WithQuantity(old(cart.items), itemIndex, quantity),
                        Total(WithQuantity(old(cart.items), itemIndex, quantity)))
      ensures cart.Snapshot() == r
      ensures cartRepository.carts == old(cartRepository.carts)[r.userId := r]
      ensures cartRepository.log == old(cartRepository.log) + [SaveCall(r)]
    {
      var item := cart.items[itemIndex];
      item := item.(quantity := quantity);
      item := item.(subTotalPrice := item.quantity * item.price);
      cart.items := cart.items[itemIndex := item];
      RecalculateCart(cart);
      r := cartRepository.Save(cart);
    }

    /** Creates the cart on a user's first add; otherwise merges the request
        into the item with the same product id or appends it, then saves. */
    method AddItemToCart(userId: string, itemDto: ItemDto) returns (r: Cart)
      requires cartRepository.Valid()
      modifies cartRepository
      ensures cartRepository.Valid()
      ensures r == AddToCart(old(Stored(userId)), userId, itemDto)
      ensures cartRepository.carts == old(cartRepository.carts)[userId := r]
      ensures cartRepository.log == old(cartRepository.log) + [GetCartCall(userId)] +
        if userId in old(cartRepository.carts) then [SaveCall(r)]
        else [CreateCartCall(userId, [NewItem(itemDto)], itemDto.quantity * itemDto.price)]
      ensures StoreWellFormed(old(cartRepository.carts)) ==> StoreWellFormed(cartRepository.carts)
    {
      if StoreWellFormed(cartRepository.carts) {
        AddKeepsWellFormed(Stored(userId), userId, itemDto);
      }
      var subTotalPrice := itemDto.quantity * itemDto.price;
      var cart := cartRepository.GetCart(userId);
      if cart == null {
        r := cartRepository.CreateCart(userId, [NewItem(itemDto)], subTotalPrice);
        return;
      }
      var itemIndex := GetItemIndex(cart.items, itemDto.productId);
      if itemIndex >= 0 {
        var item := cart.items[itemIndex];
        var itemQuantity := item.quantity + itemDto.quantity;
        r := UpdateItemQuantityAndSubtotal(cart, itemIndex, itemQuantity);
      } else {
        cart.items := cart.items + [NewItem(itemDto)];
        RecalculateCart(cart);
        r := cartRepository.Save(cart);
      }
    }

    /** Splices out the first item with this product id and saves; reports
        NotFound without writing when there is none, and MissingCart when the
        user has no cart. */
    method RemoveItemFromCart(userId: string, productId: string) returns (r: Outcome)
      requires cartRepository.Valid()
      modifies cartRepository
      ensures cartRepository.Valid()
      ensures r == RemoveFromCart(old(Stored(userId)), productId)
      ensures cartRepository.carts == if r.Saved? then old(cartRepository.carts)[userId := r.cart]
                                      else old(cartRepository.carts)
      ensures cartRepository.log == old(cartRepository.log) + [GetCartCall(userId)] +
        if r.Saved? then [SaveCall(r.cart)] else []
      ensures StoreWellFormed(old(cartRepository.carts)) ==> StoreWellFormed(cartRepository.carts)
    {
      if userId in cartRepository.carts && WellFormed(cartRepository.carts[userId]) {
        RemoveKeepsWellFormed(cartRepository.carts[userId], productId);
      }
      var cart := cartRepository.GetCart(userId);
      if cart == null {
        r := MissingCart;
        return;
      }
      var itemIndex := GetItemIndex(cart.items, productId);
      if itemIndex >= 0 {
        cart.items := cart.items[..itemIndex] + cart.items[itemIndex + 1..];
        RecalculateCart(cart);
        var saved := cartRepository.Save(cart);
        r := Saved(saved);
      } else {
        r := NotFound;
      }
    }

    /** Sets the quantity of the first item with the request's product id to
        the requested quantity floored at 0 and saves; reports NotFound
        without writing when there is none, and MissingCart when the user has
        no cart. */
    method UpdateItemQuantity(userId: string, updateQuantityDto: UpdateQuantityDto) returns (r: Outcome)
      requires cartRepository.Valid()
      modifies cartRepository
      ensures cartRepository.Valid()
      ensures r == UpdateQuantity(old(Stored(userId)), updateQuantityDto.productId, updateQuantityDto.quantity)
      ensures cartRepository.carts == if r.Saved? then old(cartRepository.carts)[userId := r.cart]
                                      else old(cartRepository.carts)
      ensures cartRepository.log == old(cartRepository.log) + [GetCartCall(userId)] +
        if r.Saved? then [SaveCall(r.cart)] else []
      ensures StoreWellFormed(old(cartRepository.carts)) ==> StoreWellFormed(cartRepository.carts)
    {
      if userId in cartRepository.carts && WellFormed(cartRepository.carts[userId]) {
        UpdateKeepsWellFormed(cartRepository.carts[userId], updateQuantityDto.productId, updateQuantityDto.quantity);
      }
      var cart := cartRepository.GetCart(userId);
      if cart == null {
        r := MissingCart;
        return;
      }
      var itemIndex := GetItemIndex(cart.items, updateQuantityDto.productId);
      if itemIndex >= 0 {
        var itemQuantity := if updateQuantityDto.quantity > 0 then updateQuantityDto.quantity else 0;
        var saved := UpdateItemQuantityAndSubtotal(cart, itemIndex, itemQuantity);
        r := Saved(saved);
      } else {
        r := NotFound;
      }
    }

    /** Passes straight through to the store's delete. */
    method DeleteCart(userId: string) returns (r: Option<Cart>)
      requires cartRepository.Valid()
      modifies cartRepository
      ensures cartRepository.Valid()
      ensures r == old(Stored(userId))
      ensures cartRepository.carts == old(cartRepository.carts) - {userId}
      ensures cartRepository.log == old(cartRepository.log) + [DeleteCartCall(userId)]
    {
      r := cartRepository.DeleteCart(userId);
    }
  }
}
