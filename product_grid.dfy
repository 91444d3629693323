/**
 * The product grid as a sequence of cards. A card's `key` is the product id in
 * its element id `product-{key}`; its state is what the card currently shows.
 */
module ProductGrid {
  import opened Wrappers
  import opened CartData
  import opened LineItems

  datatype CardState = Spinner | Loaded(item: LineItem) | LoadFailed(item: LineItem)

  datatype Card = Card(key: int, state: CardState)

  /** The grid after `displayProducts`: cards, accumulated total, and whether every lookup found its card. */
  datatype Display = Display(grid: seq<Card>, total: real, complete: bool)

  /** The element ids of the grid, in document order. */
  function Keys(grid: seq<Card>): seq<int>
  {
    seq(|grid|, i requires 0 <= i < |grid| => grid[i].key)
  }

  /** The product ids of the cart's entries, in cart order. */
  function ProductIds(items: seq<CartItem>): seq<int>
  {
    seq(|items|, i requires 0 <= i < |items| => items[i].productId)
  }

  /** One loading card per cart entry, in cart order. */
  function Placeholders(items: seq<CartItem>): seq<Card>
  {
    seq(|items|, i requires 0 <= i < |items| => Card(items[i].productId, Spinner))
  }

  /** The placeholder grid is keyed by the cart's product ids, in cart order, and shows only spinners. */
  lemma PlaceholdersKeyedByCart(items: seq<CartItem>)
    ensures Keys(Placeholders(items)) == ProductIds(items)
    ensures forall j :: 0 <= j < |items| ==> Placeholders(items)[j].state == Spinner
  {
  }

  /** No two cards share an element id. */
  ghost predicate DistinctKeys(grid: seq<Card>)
  {
    forall i, j :: 0 <= i < j < |grid| ==> grid[i].key != grid[j].key
  }

  /** `document.getElementById`: the first card in document order with the given id, if any. */
  function FindCard(grid: seq<Card>, key: int): (r: Option<nat>)
    ensures r.Some? ==> r.value < |grid|
    decreases grid
  {
    if grid == [] then None
    else if grid[0].key == key then Some(0)
    else match FindCard(grid[1..], key)
      case None => None
      case Some(k) => Some(k + 1)
  }

  /**
   * The lookup finds a card exactly when one has the id, and then it finds the
   * first such card.
   */
  lemma {:induction false} FindCardFirst(grid: seq<Card>, key: int)
    ensures FindCard(grid, key).Some? ==>
      var k := FindCard(grid, key).value;
      k < |grid| && grid[k].key == key && forall j :: 0 <= j < k ==> grid[j].key != key
    ensures FindCard(grid, key).None? <==> forall j :: 0 <= j < |grid| ==> grid[j].key != key
    decreases grid
  {
    if grid != [] && grid[0].key != key {
      FindCardFirst(grid[1..], key);
      assert forall j :: 1 <= j < |grid| ==> grid[j] == grid[1..][j - 1];
    }
  }

  /** How a card shows a settled line item: error style for a failure marker, the product otherwise. */
  function Render(line: LineItem): CardState
  {
    if line.error then LoadFailed(line) else Loaded(line)
  }

  /**
   * `displayProducts` run from the given grid and running total: each line item
   * in turn is rendered into the card with its id, and a non-error item's
   * `totalPrice` is added to the total. A missing card stops the run
   * (`productCard` is null and assigning to it throws).
   */
  function Paint(grid: seq<Card>, total: real, lines: seq<LineItem>): Display
    decreases lines
  {
    if lines == [] then Display(grid, total, true)
    else match FindCard(grid, lines[0].id)
      case None => Display(grid, total, false)
      case Some(k) =>
        Paint(grid[k := Card(grid[k].key, Render(lines[0]))],
              total + (if lines[0].error then 0.0 else lines[0].totalPrice),
              lines[1..])
  }

  /** Rendering never adds, removes or renames cards. */
  lemma {:induction false} PaintKeepsKeys(grid: seq<Card>, total: real, lines: seq<LineItem>)
    ensures Keys(Paint(grid, total, lines).grid) == Keys(grid)
    decreases lines
  {
    if lines != [] {
      var k := FindCard(grid, lines[0].id);
      FindCardFirst(grid, lines[0].id);
      if k.Some? {
        var g := grid[k.value := Card(grid[k.value].key, Render(lines[0]))];
        assert Keys(g) == Keys(grid);
        PaintKeepsKeys(g, total + (if lines[0].error then 0.0 else lines[0].totalPrice), lines[1..]);
      }
    }
  }

  /**
   * The run completes exactly when every line item's id names a card; when it
   * does, the total has grown by the filtered sum of the line items.
   */
  lemma {:induction false} PaintCompletes(grid: seq<Card>, total: real, lines: seq<LineItem>)
    ensures Paint(grid, total, lines).complete <==> forall i :: 0 <= i < |lines| ==> lines[i].id in Keys(grid)
    ensures Paint(grid, total, lines).complete ==> Paint(grid, total, lines).total == total + SuccessTotal(lines)
    decreases lines
  {
    if lines != [] {
      var k := FindCard(grid, lines[0].id);
      FindCardFirst(grid, lines[0].id);
      if k.Some? {
        var g := grid[k.value := Card(grid[k.value].key, Render(lines[0]))];
        assert Keys(g) == Keys(grid);
        assert Keys(grid)[k.value] == lines[0].id;
        PaintCompletes(g, total + (if lines[0].error then 0.0 else lines[0].totalPrice), lines[1..]);
        assert forall i :: 1 <= i < |lines| ==> lines[i] == lines[1..][i - 1];
      } else {
        assert forall j :: 0 <= j < |grid| ==> Keys(grid)[j] != lines[0].id;
      }
    }
  }

  /** With distinct element ids, looking up a card's id finds that very card. */
  lemma FindDistinct(grid: seq<Card>, j: nat)
    requires DistinctKeys(grid) && j < |grid|
    ensures FindCard(grid, grid[j].key) == Some(j)
  {
    FindCardFirst(grid, grid[j].key);
  }

  /** Painting card `off` with the first line item: the step `PaintSlotsFrom` takes. */
  lemma PaintStep(grid: seq<Card>, total: real, lines: seq<LineItem>, off: nat)
    requires DistinctKeys(grid) && off < |grid| && lines != [] && grid[off].key == lines[0].id
    ensures DistinctKeys(grid[off := Card(grid[off].key, Render(lines[0]))])
    ensures Paint(grid, total, lines) ==
      Paint(grid[off := Card(grid[off].key, Render(lines[0]))],
            total + (if lines[0].error then 0.0 else lines[0].totalPrice),
            lines[1..])
  {
    FindDistinct(grid, off);
  }

  /** Painting card `off` keeps the ids of the cards after it matched with the remaining line items. */
  lemma ShiftMatch(grid: seq<Card>, lines: seq<LineItem>, off: nat)
    requires off + |lines| <= |grid| && lines != []
    requires forall m :: 0 <= m < |lines| ==> grid[off + m].key == lines[m].id
    ensures forall m :: 0 <= m < |lines| - 1 ==>
      grid[off := Card(grid[off].key, Render(lines[0]))][off + 1 + m].key == lines[1..][m].id
  {
  }

  /**
   * With distinct element ids, rendering line items whose ids are those of the
   * cards at positions off, off + 1, ... puts each item into its own card and
   * leaves every other card as it was.
   */
  lemma {:induction false} PaintSlotsFrom(grid: seq<Card>, total: real, lines: seq<LineItem>, off: nat)
    requires DistinctKeys(grid)
    requires off + |lines| <= |grid|
    requires forall m :: 0 <= m < |lines| ==> grid[off + m].key == lines[m].id
    ensures |Paint(grid, total, lines).grid| == |grid|
    ensures forall j :: 0 <= j < |grid| && (j < off || off + |lines| <= j) ==>
      Paint(grid, total, lines).grid[j] == grid[j]
    ensures forall j :: off <= j < off + |lines| ==>
      Paint(grid, total, lines).grid[j] == Card(grid[j].key, Render(lines[j - off]))
    decreases lines
  {
    if lines != [] {
      var g := grid[off := Card(grid[off].key, Render(lines[0]))];
      var t := total + (if lines[0].error then 0.0 else lines[0].totalPrice);
      var rest := lines[1..];
      PaintStep(grid, total, lines, off);
      ShiftMatch(grid, lines, off);
      PaintSlotsFrom(g, t, rest, off + 1);
      var r := Paint(g, t, rest).grid;
      assert Paint(grid, total, lines).grid == r;
      forall j | off <= j < off + |lines|
        ensures r[j] == Card(grid[j].key, Render(lines[j - off]))
      {
        if j > off {
          assert rest[j - (off + 1)] == lines[j - off];
        }
      }
    }
  }

  /**
   * Rendering the line items of a cart with distinct product ids into its
   * placeholder grid shows each item in the card at the item's own position.
   */
  lemma PaintEachSlot(items: seq<CartItem>, total: real, lines: seq<LineItem>)
    requires |lines| == |items|
    requires forall j :: 0 <= j < |items| ==> lines[j].id == items[j].productId
    requires forall i, j :: 0 <= i < j < |items| ==> items[i].productId != items[j].productId
    ensures |Paint(Placeholders(items), total, lines).grid| == |items|
    ensures forall j :: 0 <= j < |items| ==>
      Paint(Placeholders(items), total, lines).grid[j] == Card(items[j].productId, Render(lines[j]))
  {
    PaintSlotsFrom(Placeholders(items), total, lines, 0);
  }
}
