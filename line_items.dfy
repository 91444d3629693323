/**
 * The line items `loadProducts` builds from a cart and the per-product fetch
 * outcomes, and the sums the cart total is specified by.
 */
module LineItems {
  import opened Wrappers
  import opened CartData

  /**
   * A product as listed in the cart: the product's fields, the cart's quantity
   * and the line total. `error` marks the stand-in built when the fetch failed.
   */
  datatype LineItem = LineItem(
    id: int, title: string, price: real, image: string,
    quantity: int, totalPrice: real, error: bool)

  /** Title carried by a failure marker. */
  const FailedTitle: string := "Failed to load product"

  /** The line item for one cart entry, given how its product fetch settled. */
  function MakeLineItem(item: CartItem, outcome: Option<Product>): LineItem
  {
    match outcome
    case Some(p) =>
      LineItem(p.id, p.title, p.price, p.image, item.quantity, p.price * item.quantity as real, false)
    case None =>
      LineItem(item.productId, FailedTitle, 0.0, "", item.quantity, 0.0, true)
  }

  /**
   * The ordered map over the cart's entries joined by `Promise.all`: one line
   * item per entry, at the entry's position.
   */
  function BuildLineItems(items: seq<CartItem>, outcomes: seq<Option<Product>>): (r: seq<LineItem>)
    requires |outcomes| == |items|
    ensures |r| == |items|
    decreases items
  {
    if items == [] then []
    else [MakeLineItem(items[0], outcomes[0])] + BuildLineItems(items[1..], outcomes[1..])
  }

  /**
   * Line item i belongs to cart entry i: it keeps the entry's quantity; it is a
   * failure marker exactly when the fetch failed; a fetched product's fields are
   * copied and its line total is price times quantity; a failure marker carries
   * the entry's product id, the failure title, no image and zero price and total.
   */
  lemma {:induction false} LineItemsFollowCart(items: seq<CartItem>, outcomes: seq<Option<Product>>, i: nat)
    requires |outcomes| == |items| && i < |items|
    ensures BuildLineItems(items, outcomes)[i].quantity == items[i].quantity
    ensures BuildLineItems(items, outcomes)[i].error <==> outcomes[i].None?
    ensures outcomes[i].Some? ==>
      var r, p := BuildLineItems(items, outcomes)[i], outcomes[i].value;
      r.id == p.id && r.title == p.title && r.price == p.price && r.image == p.image &&
      r.totalPrice == p.price * items[i].quantity as real
    ensures outcomes[i].None? ==>
      var r := BuildLineItems(items, outcomes)[i];
      r.id == items[i].productId && r.title == FailedTitle && r.price == 0.0 &&
      r.image == "" && r.totalPrice == 0.0
    decreases items
  {
    if i > 0 {
      LineItemsFollowCart(items[1..], outcomes[1..], i - 1);
    }
  }

  /** The filtered sum: `totalPrice` added up over the line items that are not failure markers. */
  function SuccessTotal(lines: seq<LineItem>): real
  {
    if lines == [] then 0.0
    else (if lines[0].error then 0.0 else lines[0].totalPrice) + SuccessTotal(lines[1..])
  }

  /** The unfiltered sum of `totalPrice` over all line items. */
  function AllTotal(lines: seq<LineItem>): real
  {
    if lines == [] then 0.0 else lines[0].totalPrice + AllTotal(lines[1..])
  }

  /** What one cart entry adds to the cart total: price times quantity if its product was fetched, else 0. */
  function Share(item: CartItem, outcome: Option<Product>): real
  {
    match outcome
    case Some(p) => p.price * item.quantity as real
    case None => 0.0
  }

  /** Reference definition: the shares of the cart's entries added up. */
  function ExpectedTotal(items: seq<CartItem>, outcomes: seq<Option<Product>>): real
    requires |outcomes| == |items|
  {
    if items == [] then 0.0 else Share(items[0], outcomes[0]) + ExpectedTotal(items[1..], outcomes[1..])
  }

  /** The filtered total of the built line items is the reference total. */
  lemma {:induction false} SuccessTotalIsExpected(items: seq<CartItem>, outcomes: seq<Option<Product>>)
    requires |outcomes| == |items|
    ensures SuccessTotal(BuildLineItems(items, outcomes)) == ExpectedTotal(items, outcomes)
  {
    if items != [] {
      var lines := BuildLineItems(items, outcomes);
      assert lines[1..] == BuildLineItems(items[1..], outcomes[1..]);
      SuccessTotalIsExpected(items[1..], outcomes[1..]);
    }
  }

  /** Failure markers carry a zero total, so filtering them out does not change the sum. */
  lemma {:induction false} FailuresContributeNothing(items: seq<CartItem>, outcomes: seq<Option<Product>>)
    requires |outcomes| == |items|
    ensures SuccessTotal(BuildLineItems(items, outcomes)) == AllTotal(BuildLineItems(items, outcomes))
  {
    if items != [] {
      var lines := BuildLineItems(items, outcomes);
      assert lines[1..] == BuildLineItems(items[1..], outcomes[1..]);
      FailuresContributeNothing(items[1..], outcomes[1..]);
    }
  }

  /**
   * A failed fetch at position k takes exactly that entry's price times quantity
   * out of the total, compared with the same load where the fetch succeeded.
   */
  lemma {:induction false} FailedFetchTakesOutItsShare(
    items: seq<CartItem>, outcomes: seq<Option<Product>>, k: nat, p: Product)
    requires |outcomes| == |items| && k < |items| && outcomes[k].None?
    ensures ExpectedTotal(items, outcomes[k := Some(p)])
         == ExpectedTotal(items, outcomes) + p.price * items[k].quantity as real
    ensures forall j :: 0 <= j < |items| && j != k ==>
      BuildLineItems(items, outcomes[k := Some(p)])[j] == BuildLineItems(items, outcomes)[j]
    decreases items
  {
    forall j | 0 <= j < |items| && j != k
      ensures BuildLineItems(items, outcomes[k := Some(p)])[j] == BuildLineItems(items, outcomes)[j]
    {
      LineItemsFollowCart(items, outcomes[k := Some(p)], j);
      LineItemsFollowCart(items, outcomes, j);
    }
    var fixed := outcomes[k := Some(p)];
    var restFixed := ExpectedTotal(items[1..], fixed[1..]);
    var rest := ExpectedTotal(items[1..], outcomes[1..]);
    assert ExpectedTotal(items, fixed) == Share(items[0], fixed[0]) + restFixed;
    assert ExpectedTotal(items, outcomes) == Share(items[0], outcomes[0]) + rest;
    if k == 0 {
      assert fixed[1..] == outcomes[1..];
      assert Share(items[0], fixed[0]) == p.price * items[0].quantity as real;
    } else {
      assert fixed[1..] == outcomes[1..][k - 1 := Some(p)];
      assert fixed[0] == outcomes[0];
      FailedFetchTakesOutItsShare(items[1..], outcomes[1..], k - 1, p);
    }
  }

  /** Worked example: a cart of two units of product 1 priced 9.99 totals 19.98. */
  lemma SingleItemTotal(title: string, image: string)
    ensures SuccessTotal(BuildLineItems([CartItem(1, 2)], [Some(Product(1, title, 9.99, image))])) == 19.98
  {
  }
}
