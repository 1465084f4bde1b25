/** The stock decrement `createNewSaleFromOrder` performs for a final sale. */
module Stock {
  import opened Wrappers
  import opened Orders
  import opened Sales
  import opened Database
  import LineMapping

  /** One pass of the `foreach`: a stock-tracked line decreases its (variation, location) row. */
  function DecreaseLine(stock: map<StockKey, int>, line: ProductLine, locationId: int): map<StockKey, int> {
    if line.enableStock then DecreaseAt(stock, StockKey(line.variationId, locationId), line.quantity) else stock
  }

  /** The stock after the whole `foreach`, lines taken in order; no row ever disappears. */
  function StockAfter(stock: map<StockKey, int>, lines: seq<ProductLine>, locationId: int): (r: map<StockKey, int>)
    ensures stock.Keys <= r.Keys
    decreases |lines|
  {
    if lines == [] then stock else StockAfter(DecreaseLine(stock, lines[0], locationId), lines[1..], locationId)
  }

  /** The total quantity of the stock-tracked lines that draw on the row `key`. */
  function TrackedQuantity(lines: seq<ProductLine>, key: StockKey, locationId: int): nat {
    if lines == [] then 0
    else
      (if lines[0].enableStock && StockKey(lines[0].variationId, locationId) == key then lines[0].quantity else 0)
      + TrackedQuantity(lines[1..], key, locationId)
  }

  /** Whether some stock-tracked line draws on the row `key`. */
  function Touches(lines: seq<ProductLine>, key: StockKey, locationId: int): bool {
    if lines == [] then false
    else (lines[0].enableStock && StockKey(lines[0].variationId, locationId) == key) || Touches(lines[1..], key, locationId)
  }

  /**
   * The rows after the decrement are the old rows and those a stock-tracked line
   * draws on, and every row holds its old stock (0 when it had no row) less exactly
   * the quantity of the stock-tracked lines on it.
   */
  lemma {:induction false} StockAfterAt(stock: map<StockKey, int>, lines: seq<ProductLine>, locationId: int, key: StockKey)
    ensures key in StockAfter(stock, lines, locationId) <==> key in stock || Touches(lines, key, locationId)
    ensures Stored(StockAfter(stock, lines, locationId), key) == Stored(stock, key) - TrackedQuantity(lines, key, locationId)
    decreases |lines|
  {
    if lines != [] {
      StockAfterAt(DecreaseLine(stock, lines[0], locationId), lines[1..], locationId, key);
    }
  }

  /** The `foreach ($input['products'] as $product)` loop, with the intended stock operation. */
  method DecreaseStock(db: Store, lines: seq<ProductLine>, locationId: int)
    requires db.Valid()
    modifies db
    ensures db.Valid()
    ensures db.State() == old(db.State()).(stock := StockAfter(old(db.stock), lines, locationId))
  {
    for i := 0 to |lines|
      invariant db.Valid()
      invariant db.State() == old(db.State()).(stock := db.stock)
      invariant StockAfter(db.stock, lines[i..], locationId) == StockAfter(old(db.stock), lines, locationId)
    {
      assert lines[i..][1..] == lines[i + 1..];
      if lines[i].enableStock {
        db.DecreaseProductQuantity(lines[i].variationId, locationId, lines[i].quantity);
      }
    }
  }

  /** How the loop ends as written: it runs through, or aborts at line `at`. */
  datatype LoopOutcome = Completed | Aborted(at: nat)

  /**
   * The loop as written. `$this->productUtil` is never assigned, so the first
   * stock-tracked line aborts the loop with an exception; `orderCreated` then
   * answers 500 and none of the sale is committed.
   */
  function StockLoopAsWritten(lines: seq<ProductLine>): (r: LoopOutcome)
    ensures r.Aborted? <==> exists i :: 0 <= i < |lines| && lines[i].enableStock
    ensures r.Aborted? ==>
      r.at < |lines| && lines[r.at].enableStock && forall j :: 0 <= j < r.at ==> !lines[j].enableStock
  {
    if lines == [] then Completed
    else if lines[0].enableStock then Aborted(0)
    else
      match StockLoopAsWritten(lines[1..])
      case Completed => Completed
      case Aborted(k) =>
        assert lines[k + 1] == lines[1..][k];
        assert forall j :: 0 < j <= k ==> lines[j] == lines[1..][j - 1];
        Aborted(k + 1)
  }

  /**
   * A one-line order for a stock-tracked product: the line maps, and the loop as
   * written aborts on it where the intended decrement lowers the stock row by 1.
   */
  lemma AsWrittenStockLoopFails()
    ensures var products := map[39 := Product(39, 1, true, [Variation(7)])];
      var line := OrderLine(501, "Mug", "MUG-1", 1, 10.0, None);
      var order := Order("1001", [line], Address("", "", "", "", "", "", "", "", "", "", ""),
                         Address("", "", "", "", "", "", "", "", "", "", ""), [], 10.0, 0.0, None, "", "", "");
      && LineMapping.AllLinesResolve(products, 1, order.lineItems)
      && StockLoopAsWritten(LineMapping.MappedLines(products, 1, order.lineItems)) == Aborted(0)
      && StockAfter(map[StockKey(7, 1) := 5], LineMapping.MappedLines(products, 1, order.lineItems), 1)
         == map[StockKey(7, 1) := 4]
  {
    var products := map[39 := Product(39, 1, true, [Variation(7)])];
    var line := OrderLine(501, "Mug", "MUG-1", 1, 10.0, None);
    var lines := LineMapping.MappedLines(products, 1, [line]);
    assert lines[0].enableStock && lines[0].variationId == 7 && lines[0].quantity == 1;
    assert lines[1..] == [];
  }
}
