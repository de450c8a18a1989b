# Cart aggregate engine

A Dafny model of `CartService` (src/cart/cart.service.ts), the part of a
NestJS/MongoDB shop backend that owns one user's shopping cart. A cart is
an ordered list of line items (product id, name, quantity, unit price,
subtotal) plus a total. The service provides four operations:

- **add.** The first add for a user creates the cart. A later add merges
  into the item with the same product id or appends the item.
- **remove.** Splices out the first item with the given product id.
- **update quantity.** Sets the requested quantity, floored at 0.
- **delete.** Passes the call through to the store.

Every add to an existing cart, and every remove or update that finds the
product, changes the loaded document in place, recomputes the total from 0
and writes the whole cart back with one save. A remove or update that misses
the product writes nothing: it returns without changing, recalculating or
saving. The first add for a user calls the store's create with the one item
and a total equal to its subtotal, with no recalculation and no save.

Files:

- `schemas.dfy` (module `Schemas`): items, carts, request bodies, the total
  Σ quantity × price, and `GetItemIndex`, the first-match lookup
  (`findIndex`) that returns -1 on a miss.
- `repository.dfy` (module `Repository`): the store, modelled as the class
  `CartRepository` over a map from user id to cart. It offers `GetCart`,
  `CreateCart`, `Save` and `DeleteCart`, and keeps a ghost log of every call
  with its arguments. The log is how "exactly one save" and "no write on a
  miss" are stated. `CartDocument` is a loaded cart that the service changes
  in place.
- `service.dfy` (module `Service`): the class `CartService`. Its methods
  mirror the source method by method. `RecalculateCart` is the summing loop.
  `UpdateItemQuantityAndSubtotal` is the shared write-quantity-then-save
  helper. Each public method's `ensures` ties the new store contents and
  the result to a function of the old contents, and states the exact list
  of store calls made.
- `cart_spec.dfy` (module `CartSpec`): those functions (`AddToCart`,
  `RemoveFromCart`, `UpdateQuantity`) and the laws proved about them:
  - create on first add;
  - merge keeps the stored price;
  - append preserves order and uniqueness;
  - remove drops exactly one item;
  - the quantity clamp;
  - every operation preserves the aggregate invariants (total = Σ quantity ×
    price, subtotal = quantity × price, unique product ids).
- `scenarios.dfy` (module `Scenarios`): the unit tests' vectors, stated as
  postconditions of calls to the service methods on a fresh store and
  proved.

Design decisions:

- **Merge keeps the stored price.** When a product already in the cart is
  added again, the subtotal is recomputed with the item's stored price. The
  incoming price is never written (src/cart/cart.service.ts:28-30).
  `CartSpec.MergeLaw` states this.
- **A missing cart crashes remove and update.** Both operations read
  `cart.items` without checking that `getCart` found a cart. The model
  gives this crash an explicit outcome, `MissingCart`, next to `Saved` and
  `NotFound`. `NotFound` models the `undefined` returned on a miss.
- **The append test's total of 15 depends on test order.** The test's
  fixture cart sums to 14, not 15. It reaches 15 because the merge test
  before it writes quantity 2 into the shared `productOne` fixture object,
  since the service mutates the loaded item in place.
  `Scenarios.AppendScenario` therefore starts from that mutated cart.

## Model

| member | source | states |
|---|---|---|
| `Schemas.GetItemIndex` | src/cart/cart.service.ts:12-14 | result is -1 exactly when no item has the id; otherwise it is an index whose item has the id and no earlier item does |
| `Schemas.TotalAppend` | src/cart/cart.service.ts:16-21 | the total of a concatenation is the sum of the totals (what lets the per-item loop build the total) |
| `Schemas.TotalWithout` | src/cart/cart.service.ts:69-70 | the total recomputed after splicing out item i equals the old total minus that item's quantity × price |
| `Schemas.TotalReplace` | src/cart/cart.service.ts:28-32 | the total recomputed after replacing item i changes by exactly the difference of the two lines |
| `Service.CartService.RecalculateCart` | src/cart/cart.service.ts:16-21 | after the loop the total equals Σ quantity × price over all items; items and user id untouched |
| `Service.CartService.UpdateItemQuantityAndSubtotal` | src/cart/cart.service.ts:23-35 | item i gets the new quantity and subtotal quantity × stored price, nothing else in the list changes, the total is recomputed, and exactly one save of that cart is made |
| `Service.CartService.AddItemToCart` | src/cart/cart.service.ts:37-62 | the store ends with `AddToCart` of the old cart; one getCart, then one createCart with [item with subtotal] and total quantity × price when the user had no cart (no save), else exactly one save; aggregate invariants kept |
| `Service.CartService.RemoveItemFromCart` | src/cart/cart.service.ts:64-74 | result is `RemoveFromCart` of the old cart; on NotFound or MissingCart the store is unchanged and only getCart is called; on Saved the new cart is stored by one save; invariants kept |
| `Service.CartService.UpdateItemQuantity` | src/cart/cart.service.ts:76-92 | result is `UpdateQuantity` of the old cart; on NotFound or MissingCart the store is unchanged and only getCart is called; on Saved one save; invariants kept |
| `Service.CartService.DeleteCart` | src/cart/cart.service.ts:94-96 | returns exactly the store's delete result (None when the user had no cart), removes that user's entry and no other, and makes one deleteCart call |
| `Service.CartService.constructor` | src/cart/cart.service.ts:10 | the service holds the given store |
| `Repository.CartRepository.GetCart` | src/cart/cart.repository.ts:12-14 | null exactly when the user has no cart, else a fresh document holding the stored cart; the store is unchanged |
| `Repository.CartRepository.CreateCart` | src/cart/cart.repository.ts:16-26 | stores and returns the cart built from the arguments for a user who had none |
| `Repository.CartRepository.DeleteCart` | src/cart/cart.repository.ts:28-30 | returns the removed cart, or None if there was none; only that key is removed |
| `Repository.CartRepository.Save` | src/cart/cart.repository.ts:32-34 | replaces the whole cart under the document's user id and returns what was stored |
| `Repository.CartRepository.constructor` | src/cart/cart.repository.ts:8-11 | an empty store with an empty call log |
| `Repository.CartDocument.constructor` | src/cart/cart.repository.ts:12-14 | a loaded document holds exactly the stored cart's fields |
| `CartSpec.WithQuantityKeepsIds` | src/cart/cart.service.ts:28-31 | writing a quantity keeps the length and every product id, so unique ids stay unique |
| `CartSpec.WithQuantityTotal` | src/cart/cart.service.ts:28-32 | on a consistent cart, writing a quantity keeps every subtotal = quantity × price and moves the recomputed total by the change in that one line |
| `CartSpec.CreateOnFirstAdd` | src/cart/cart.service.ts:38-47 | with no stored cart the result is a one-item cart whose item has subtotal quantity × price and whose total equals it, and it is well formed |
| `CartSpec.MergeLaw` | src/cart/cart.service.ts:50-55 | adding a product found first at i: item i's quantity becomes old + incoming and its subtotal uses the stored price (price, name, id kept); all other items and the length unchanged; on a consistent cart the total grows by incoming quantity × stored price |
| `CartSpec.AppendLaw` | src/cart/cart.service.ts:56-60 | adding an absent product gives exactly the old items followed by the new item with subtotal quantity × price; the total grows by that subtotal; unique ids stay unique |
| `CartSpec.AddKeepsWellFormed` | src/cart/cart.service.ts:37-62 | add turns a well-formed cart (or no cart) into a well-formed cart |
| `CartSpec.RemoveNotFound` | src/cart/cart.service.ts:64-74 | remove reports MissingCart exactly when there is no cart, and NotFound exactly when no item has the id |
| `CartSpec.RemoveLaw` | src/cart/cart.service.ts:66-72 | removing the product found first at i leaves exactly the items before and after i in order and recomputes the total over them (old total minus that line on a consistent cart); with unique ids the product is gone |
| `CartSpec.RemoveKeepsWellFormed` | src/cart/cart.service.ts:64-74 | a successful remove turns a well-formed cart into a well-formed cart |
| `CartSpec.UpdateNotFound` | src/cart/cart.service.ts:76-92 | update reports MissingCart exactly when there is no cart, and NotFound exactly when no item has the id |
| `CartSpec.UpdateLaw` | src/cart/cart.service.ts:86-90 | updating the product found first at i sets its quantity to q if q > 0 else 0 (never negative, item kept), subtotal = that × stored price, price/name/id and every other item unchanged, total recomputed |
| `CartSpec.UpdateKeepsWellFormed` | src/cart/cart.service.ts:76-92 | a successful update turns a well-formed cart into a well-formed cart |
| `Scenarios.MergeVector` | src/cart/cart.service.spec.ts:96-127 | adding product1 to user1's cart gives product1 quantity 2, subtotal 2, total 6 |
| `Scenarios.AppendVector` | src/cart/cart.service.spec.ts:129-153 | adding product3 appends it and gives total 15 when product1 already has quantity 2 |
| `Scenarios.RemoveVector` | src/cart/cart.service.spec.ts:157-199 | removing product1 leaves [product2] with total 4; removing product3 is NotFound |
| `Scenarios.UpdateVector` | src/cart/cart.service.spec.ts:203-260 | setting product1 to q gives subtotal and quantity max(q, 0) and total 4 + max(q, 0); updating product3 is NotFound |
| `Scenarios.SeededService` | src/cart/cart.service.spec.ts:37-55 | a service over a store holding just the given cart |
| `Scenarios.CreateScenario` | src/cart/cart.service.spec.ts:67-93 | user2 without a cart gets [product3] with total 9 through one getCart and one createCart |
| `Scenarios.MergeScenario` | src/cart/cart.service.spec.ts:96-127 | the service stores and returns user1's cart with product1 at quantity 2 and total 6, after one getCart and one save |
| `Scenarios.AppendScenario` | src/cart/cart.service.spec.ts:129-153 | the service stores and returns [product1, product2, product3] with total 15, after one getCart and one save |
| `Scenarios.RemoveAbsentScenario` | src/cart/cart.service.spec.ts:157-173 | removing product3 returns NotFound, the store is unchanged and only getCart is called (no save) |
| `Scenarios.RemoveScenario` | src/cart/cart.service.spec.ts:175-199 | removing product1 stores and returns [product2] with total 4, after one getCart and one save |
| `Scenarios.UpdateAbsentScenario` | src/cart/cart.service.spec.ts:203-223 | updating product3 returns NotFound, the store is unchanged and only getCart is called (no save) |
| `Scenarios.UpdateScenario` | src/cart/cart.service.spec.ts:225-260 | setting product1 to 10 stores and returns subtotal 10, price 1, total 14, after one getCart and one save |
| `Scenarios.ClampScenario` | src/cart/cart.service.ts:87-88 | setting product1 to -3 keeps it with quantity 0 and subtotal 0, total 4 |
| `Scenarios.DeleteAbsentScenario` | src/cart/cart.service.spec.ts:264-277 | deleting user2's nonexistent cart returns None after one deleteCart call and leaves user1's cart |
| `Scenarios.DeleteScenario` | src/cart/cart.service.spec.ts:279-292 | deleting user1's cart returns it after one deleteCart call and leaves the store empty |

## Left out

- Numbers: prices and quantities are unbounded integers, not IEEE doubles. Rounding and overflow of JavaScript `number` are not modelled.
- Persistence: the Mongoose calls behind `CartRepository` (`findOne`, `create`, `findOneAndRemove`, `new Model(cart).save()`) are a map plus a ghost call log. Store failures (connectivity, validation) are not modelled.
- Repository.CartRepository.CreateCart: requires that the user has no cart. That is the only case the service calls it in. What the database does with a second cart for the same user depends on a schema that is not part of this model.
- Concurrency: every operation is one sequential step. Interleaved read-modify-write races between concurrent calls for the same user (where the last write wins) are not modelled.
- Crash on a missing cart: the TypeError thrown when remove or update runs with no cart is the `MissingCart` outcome. The call to getCart made before the crash is recorded; nothing else happens.
- Aliasing of line items: items are values. The source writes the new quantity into the loaded item object itself. That is visible to other holders of that object, such as the test fixtures, but not to the store. The scenario for the append test reproduces its one observable effect by hand.
- The controller (HTTP routing, guards, turning absent results into NotFoundException), the product, user and auth services, and the repository's own tests are not part of this model.
