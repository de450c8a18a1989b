/** The cart store the service depends on: one persisted cart per user id,
    reached through getCart, createCart, save and deleteCart. The store is a
    map from user id to cart; a ghost log records every call made to it, in
    order, so that "exactly one save" or "no write at all" can be stated. */
module Repository {
  import opened Schemas

  /** One call into the store, with its arguments. */
  datatype StoreCall =
    | GetCartCall(userId: string)
    | CreateCartCall(userId: string, items: seq<Item>, totalPrice: int)
    | SaveCall(cart: Cart)
    | DeleteCartCall(userId: string)

  /** A loaded cart that the service changes in place before saving it. */
  class CartDocument {
    var userId: string
    var items: seq<Item>
    var totalPrice: int

    /** The document's current contents as a value. */
    function Snapshot(): (r: Cart)
      reads this
    {
      Cart(userId, items, totalPrice)
    }

    /** A document holding the fields of a stored cart. */
    constructor (c: Cart)
      ensures Snapshot() == c
    {
      userId, items, totalPrice := c.userId, c.items, c.totalPrice;
    }
  }

  class CartRepository {
    var carts: map<string, Cart>
    ghost var log: seq<StoreCall>

    /** Every cart is filed under its own user id. */
    ghost predicate Valid()
      reads this
    {
      forall u :: u in carts ==> carts[u].userId == u
    }

    constructor ()
      ensures Valid() && carts == map[] && log == []
    {
      carts, log := map[], [];
    }

    /** The user's cart as a fresh document, or null when the user has none. */
    method GetCart(userId: string) returns (doc: CartDocument?)
      requires Valid()
      modifies this`log
      ensures Valid() && carts == old(carts)
      ensures log == old(log) + [GetCartCall(userId)]
      ensures doc == null <==> userId !in carts
      ensures doc != null ==> fresh(doc) && doc.Snapshot() == carts[userId]
    {
      log := log + [GetCartCall(userId)];
      if userId in carts {
        doc := new CartDocument(carts[userId]);
      } else {
        doc := null;
      }
    }

    /** Stores a new cart for a user who has none and returns it. */
    method CreateCart(userId: string, items: seq<Item>, totalPrice: int) returns (r: Cart)
      requires Valid()
      requires userId !in carts
      modifies this
      ensures Valid()
      ensures r == Cart(userId, items, totalPrice)
      ensures carts == old(carts)[userId := r]
      ensures log == old(log) + [CreateCartCall(userId, items, totalPrice)]
    {
      log := log + [CreateCartCall(userId, items, totalPrice)];
      r := Cart(userId, items, totalPrice);
      carts := carts[userId := r];
    }

    /** Removes the user's cart, returning it, or None when there was none. */
    method DeleteCart(userId: string) returns (r: Option<Cart>)
      requires Valid()
      modifies this
      ensures Valid()
      ensures r == if userId in old(carts) then Some(old(carts)[userId]) else None
      ensures carts == old(carts) - {userId}
      ensures log == old(log) + [DeleteCartCall(userId)]
    {
      log := log + [DeleteCartCall(userId)];
      if userId in carts {
        r := Some(carts[userId]);
      } else {
        r := None;
      }
      carts := carts - {userId};
    }

    /** Replaces the whole cart filed under the document's user id
        (last write wins) and returns what was stored. */
    method Save(doc: CartDocument) returns (r: Cart)
      requires Valid()
      modifies this
      ensures Valid()
      ensures r == doc.Snapshot()
      ensures carts == old(carts)[doc.userId := r]
      ensures log == old(log) + [SaveCall(r)]
    {
      r := doc.Snapshot();
      log := log + [SaveCall(r)];
      carts := carts[doc.userId := r];
    }
  }
}
