/**
 * The records the catalog service returns for a cart, and the cart summary
 * (date, total item count, user) shown above the product grid.
 */
module CartData {

  /** One entry of a cart: which product, and how many of it. */
  datatype CartItem = CartItem(productId: int, quantity: int)

  /** A cart as returned by the catalog; `items` keeps the order of the response's `products` array. */
  datatype CartRecord = CartRecord(id: int, userId: int, date: string, items: seq<CartItem>)

  /** The fields of a product response that the page uses. */
  datatype Product = Product(id: int, title: string, price: real, image: string)

  /** What the cart-info panel shows. The date is kept as received (locale formatting is not modelled). */
  datatype CartSummary = CartSummary(date: string, totalItems: int, userId: int)

  /** Reference definition: the mathematical sum of the quantities. */
  function QuantitySum(items: seq<CartItem>): int
  {
    if items == [] then 0 else items[0].quantity + QuantitySum(items[1..])
  }

  /** `reduce((sum, item) => sum + item.quantity, acc)`: a left fold over the items. */
  function ReduceQuantity(acc: int, items: seq<CartItem>): int
    decreases items
  {
    if items == [] then acc else ReduceQuantity(acc + items[0].quantity, items[1..])
  }

  /** The left fold started at `acc` adds exactly the sum of the quantities to `acc`. */
  lemma {:induction false} ReduceQuantityIsSum(acc: int, items: seq<CartItem>)
    ensures ReduceQuantity(acc, items) == acc + QuantitySum(items)
    decreases items
  {
    if items != [] {
      ReduceQuantityIsSum(acc + items[0].quantity, items[1..]);
    }
  }

  /** The total item count: the reduce started at 0. */
  function TotalItems(items: seq<CartItem>): (n: int)
    ensures n == QuantitySum(items)
    ensures items == [] ==> n == 0
  {
    ReduceQuantityIsSum(0, items);
    ReduceQuantity(0, items)
  }

  /** With positive quantities, as the catalog's carts have, the count is at least the number of entries. */
  lemma {:induction false} TotalItemsAtLeastEntries(items: seq<CartItem>)
    requires forall i :: 0 <= i < |items| ==> items[i].quantity > 0
    ensures TotalItems(items) >= |items|
  {
    if items != [] {
      TotalItemsAtLeastEntries(items[1..]);
    }
  }

  /** The summary rendered by `displayCartInfo`. */
  function Summarize(cart: CartRecord): (s: CartSummary)
    ensures s.totalItems == QuantitySum(cart.items)
    ensures s.userId == cart.userId && s.date == cart.date
  {
    CartSummary(cart.date, TotalItems(cart.items), cart.userId)
  }
}
