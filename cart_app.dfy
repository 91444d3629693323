/**
 * The cart page controller. Its fields are the controller's own state
 * (`cartData`, `products`, `totalAmount`) and the parts of the page it writes:
 * the visibility of the loading, error and cart panels, the cart-info panel,
 * the product grid and the cart-total element. The network is replaced by the
 * fetch outcomes each load is given.
 */
module CartPage {
  import opened Wrappers
  import opened CartData
  import opened LineItems
  import opened ProductGrid

  datatype Panel = Loading | Error | Content

  /** Observable steps of a load, in the order they happen. */
  datatype Event =
    | PanelShown(panel: Panel)
    | SummaryRendered(summary: CartSummary)
    | PlaceholdersCreated(keys: seq<int>)
    | ProductsRequested(ids: seq<int>)  // one product fetch per cart entry, in cart order
    | TotalRendered(total: real)

  /** Every product that was fetched is the one that was asked for. */
  predicate ResponsesMatch(items: seq<CartItem>, outcomes: seq<Option<Product>>)
    requires |outcomes| == |items|
  {
    forall i :: 0 <= i < |items| && outcomes[i].Some? ==> outcomes[i].value.id == items[i].productId
  }

  /** The grid, total and completion of rendering a cart's line items into its placeholder grid. */
  function Settle(cart: CartRecord, outcomes: seq<Option<Product>>): Display
    requires |outcomes| == |cart.items|
  {
    Paint(Placeholders(cart.items), 0.0, BuildLineItems(cart.items, outcomes))
  }

  /**
   * When every fetched product is the one asked for, rendering finds every
   * card, the grid keeps the cart's keys, and the total is price times quantity
   * over the fetched products.
   */
  lemma SettleWhenResponsesMatch(cart: CartRecord, outcomes: seq<Option<Product>>)
    requires |outcomes| == |cart.items| && ResponsesMatch(cart.items, outcomes)
    ensures Settle(cart, outcomes).complete
    ensures Settle(cart, outcomes).total == ExpectedTotal(cart.items, outcomes)
    ensures Keys(Settle(cart, outcomes).grid) == ProductIds(cart.items)
  {
    var items := cart.items;
    var lines := BuildLineItems(items, outcomes);
    var keys := Keys(Placeholders(items));
    PlaceholdersKeyedByCart(items);
    forall i | 0 <= i < |lines|
      ensures lines[i].id in keys
    {
      LineItemsFollowCart(items, outcomes, i);
      assert keys[i] == items[i].productId == lines[i].id;
    }
    PaintCompletes(Placeholders(items), 0.0, lines);
    PaintKeepsKeys(Placeholders(items), 0.0, lines);
    SuccessTotalIsExpected(items, outcomes);
  }

  /**
   * When in addition the cart's product ids are distinct, each card shows the
   * line item of its own position: the product, or the failure marker.
   */
  lemma SettleEachSlot(cart: CartRecord, outcomes: seq<Option<Product>>)
    requires |outcomes| == |cart.items| && ResponsesMatch(cart.items, outcomes)
    requires forall i, j :: 0 <= i < j < |cart.items| ==> cart.items[i].productId != cart.items[j].productId
    ensures |Settle(cart, outcomes).grid| == |cart.items|
    ensures forall j :: 0 <= j < |cart.items| ==>
      Settle(cart, outcomes).grid[j] ==
        Card(cart.items[j].productId, Render(BuildLineItems(cart.items, outcomes)[j]))
  {
    var lines := BuildLineItems(cart.items, outcomes);
    forall j | 0 <= j < |cart.items|
      ensures lines[j].id == cart.items[j].productId
    {
      LineItemsFollowCart(cart.items, outcomes, j);
    }
    PaintEachSlot(cart.items, 0.0, lines);
  }

  class CartApp {
    var loadingVisible: bool
    var errorVisible: bool
    var cartVisible: bool

    var cartData: Option<CartRecord>
    var products: seq<LineItem>
    var totalAmount: real

    /** Contents of the cart-info panel. */
    var cartInfo: Option<CartSummary>
    /** Children of the products grid. */
    var grid: seq<Card>
    /** Contents of the cart-total element. */
    var shownTotal: Option<real>

    /** The steps of every load so far. */
    ghost var events: seq<Event>

    /** Exactly one of the three panels is visible: `p`. */
    predicate OnlyVisible(p: Panel)
      reads this
    {
      loadingVisible == (p == Loading) && errorVisible == (p == Error) && cartVisible == (p == Content)
    }

    /**
     * Creates the controller and runs the first load. The initial visibility of
     * the panels comes from the page's markup; the first load overrides it.
     */
    constructor (cartOutcome: Option<CartRecord>, productOutcomes: seq<Option<Product>>)
      requires cartOutcome.Some? ==> |productOutcomes| == |cartOutcome.value.items|
      ensures cartOutcome.None? ==>
        OnlyVisible(Error) && cartData == None && products == [] && totalAmount == 0.0 &&
        grid == [] && cartInfo == None && shownTotal == None
      ensures cartOutcome.Some? ==>
        var d := Settle(cartOutcome.value, productOutcomes);
        cartData == cartOutcome && grid == d.grid && totalAmount == d.total &&
        products == BuildLineItems(cartOutcome.value.items, productOutcomes) &&
        cartInfo == Some(Summarize(cartOutcome.value)) &&
        shownTotal == (if d.complete then Some(d.total) else None) &&
        OnlyVisible(if d.complete then Content else Error)
    {
      loadingVisible, errorVisible, cartVisible := false, false, false;
      cartData := None;
      products := [];
      totalAmount := 0.0;
      cartInfo := None;
      grid := [];
      shownTotal := None;
      events := [];
      new;
      LoadCart(cartOutcome, productOutcomes);
    }

    method ShowLoading()
      modifies this`loadingVisible, this`errorVisible, this`cartVisible, this`events
      ensures OnlyVisible(Loading)
      ensures events == old(events) + [PanelShown(Loading)]
    {
      loadingVisible, errorVisible, cartVisible := true, false, false;
      events := events + [PanelShown(Loading)];
    }

    method ShowError()
      modifies this`loadingVisible, this`errorVisible, this`cartVisible, this`events
      ensures OnlyVisible(Error)
      ensures events == old(events) + [PanelShown(Error)]
    {
      loadingVisible, errorVisible, cartVisible := false, true, false;
      events := events + [PanelShown(Error)];
    }

    method ShowCart()
      modifies this`loadingVisible, this`errorVisible, this`cartVisible, this`events
      ensures OnlyVisible(Content)
      ensures events == old(events) + [PanelShown(Content)]
    {
      loadingVisible, errorVisible, cartVisible := false, false, true;
      events := events + [PanelShown(Content)];
    }

    /** Renders the cart's date, total item count and user id. */
    method DisplayCartInfo()
      requires cartData.Some?
      modifies this`cartInfo, this`events
      ensures cartInfo == Some(Summarize(cartData.value))
      ensures events == old(events) + [SummaryRendered(Summarize(cartData.value))]
    {
      var summary := Summarize(cartData.value);
      cartInfo := Some(summary);
      events := events + [SummaryRendered(summary)];
    }

    /** Empties the grid, then appends one loading card per cart entry. */
    method CreateProductPlaceholders()
      requires cartData.Some?
      modifies this`grid, this`events
      ensures grid == Placeholders(cartData.value.items)
      ensures events == old(events) + [PlaceholdersCreated(ProductIds(cartData.value.items))]
    {
      var items := cartData.value.items;
      grid := [];
      for i := 0 to |items|
        invariant grid == Placeholders(items[..i])
        invariant events == old(events)
      {
        grid := grid + [Card(items[i].productId, Spinner)];
      }
      assert items[..|items|] == items;
      events := events + [PlaceholdersCreated(ProductIds(items))];
    }

    /**
     * Renders each line item into its card, in order, adding the `totalPrice` of
     * each non-error item to `totalAmount`. Returns false where `displayProducts`
     * throws: a line item whose card is not in the grid.
     */
    method DisplayProducts() returns (ok: bool)
      modifies this`grid, this`totalAmount
      ensures Display(grid, totalAmount, ok) == Paint(old(grid), old(totalAmount), products)
    {
      ghost var grid0, total0 := grid, totalAmount;
      ok := true;
      var i := 0;
      while i < |products|
        invariant 0 <= i <= |products|
        invariant Paint(grid, totalAmount, products[i..]) == Paint(grid0, total0, products)
      {
        var line := products[i];
        assert products[i..][0] == line && products[i..][1..] == products[i + 1..];
        var k := FindCard(grid, line.id);
        if k.None? {
          assert Paint(grid, totalAmount, products[i..]) == Display(grid, totalAmount, false);
          ok := false;
          break;
        }
        grid := grid[k.value := Card(grid[k.value].key, Render(line))];
        if !line.error {
          totalAmount := totalAmount + line.totalPrice;
        }
        i := i + 1;
      }
    }

    /**
     * Resets the total, builds the line items from the fetch outcomes (one per
     * cart entry, in cart order), renders them, and on success shows the total.
     * Returns false where `displayProducts` throws while rendering.
     */
    method LoadProducts(outcomes: seq<Option<Product>>) returns (ok: bool)
      requires cartData.Some? && |outcomes| == |cartData.value.items|
      modifies this`totalAmount, this`products, this`grid, this`shownTotal, this`events
      ensures products == BuildLineItems(cartData.value.items, outcomes)
      ensures Display(grid, totalAmount, ok) == Paint(old(grid), 0.0, products)
      ensures ok ==> totalAmount == SuccessTotal(products) == ExpectedTotal(cartData.value.items, outcomes)
      ensures shownTotal == if ok then Some(totalAmount) else old(shownTotal)
      ensures events == if ok then old(events) + [ProductsRequested(ProductIds(cartData.value.items))] + [TotalRendered(totalAmount)]
                        else old(events) + [ProductsRequested(ProductIds(cartData.value.items))]
    {
      totalAmount := 0.0;
      events := events + [ProductsRequested(ProductIds(cartData.value.items))];
      products := BuildLineItems(cartData.value.items, outcomes);
      ok := DisplayProducts();
      if ok {
        PaintCompletes(old(grid), 0.0, products);
        SuccessTotalIsExpected(cartData.value.items, outcomes);
        shownTotal := Some(totalAmount);
        events := events + [TotalRendered(totalAmount)];
      }
    }

    /**
     * One load: show the loading panel; if the cart fetch failed, show the error
     * panel and change nothing else; otherwise keep the cart, render its
     * summary, show the cart panel, rebuild the placeholder grid and load the
     * products, switching to the error panel if rendering them fails.
     */
    method LoadCart(cartOutcome: Option<CartRecord>, productOutcomes: seq<Option<Product>>)
      requires cartOutcome.Some? ==> |productOutcomes| == |cartOutcome.value.items|
      modifies this
      ensures cartOutcome.None? ==>
        && OnlyVisible(Error)
        && cartData == old(cartData) && products == old(products) && totalAmount == old(totalAmount)
        && grid == old(grid) && cartInfo == old(cartInfo) && shownTotal == old(shownTotal)
        && events == old(events) + [PanelShown(Loading)] + [PanelShown(Error)]
      ensures cartOutcome.Some? ==>
        var cart := cartOutcome.value;
        var d := Settle(cart, productOutcomes);
        && cartData == cartOutcome
        && cartInfo == Some(Summarize(cart))
        && products == BuildLineItems(cart.items, productOutcomes)
        && grid == d.grid && totalAmount == d.total
        && OnlyVisible(if d.complete then Content else Error)
        && shownTotal == (if d.complete then Some(d.total) else old(shownTotal))
        && events == old(events) + [PanelShown(Loading)] + [SummaryRendered(Summarize(cart))] +
          [PanelShown(Content)] + [PlaceholdersCreated(ProductIds(cart.items))] +
          [ProductsRequested(ProductIds(cart.items))] +
          [if d.complete then TotalRendered(d.total) else PanelShown(Error)]
    {
      ghost var total0 := shownTotal;
      ShowLoading();
      if cartOutcome.None? {
        ShowError();
        return;
      }
      var cart := cartOutcome.value;
      cartData := cartOutcome;
      DisplayCartInfo();
      ghost var info := cartInfo;
      assert info == Some(Summarize(cart));
      ShowCart();
      CreateProductPlaceholders();
      assert shownTotal == total0 && cartInfo == info;
      var ok := LoadProducts(productOutcomes);
      ghost var d := Settle(cart, productOutcomes);
      assert Display(grid, totalAmount, ok) == d;
      if !ok {
        ShowError();
        assert shownTotal == total0;
      }
    }
  }
}
