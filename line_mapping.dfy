/** The `line_items` loop of `formatOrderToSale`: every order line becomes a product line, or none does. */
module LineMapping {
  import opened Wrappers
  import opened Orders
  import opened Sales
  import opened Database

  /** Every order line is looked up under this product id, whatever the line says. */
  const HardCodedProductId := 39

  datatype Pricing = Pricing(unitPrice: real, unitPriceIncTax: real, itemTax: real)

  /**
   * Per-unit price, the line's tax (0 when absent) and the tax-inclusive unit price.
   * Multiplying back by the quantity gives the line total and the line tax.
   */
  function PriceLine(total: real, totalTax: Option<real>, quantity: nat): (r: Pricing)
    requires quantity > 0
    ensures r.unitPrice * quantity as real == total
    ensures r.itemTax == (if totalTax.Some? then totalTax.value else 0.0)
    ensures (r.unitPriceIncTax - r.unitPrice) * quantity as real == r.itemTax
  {
    var unitPrice := total / quantity as real;
    var lineTax := if totalTax.Some? then totalTax.value else 0.0;
    var unitLineTax := lineTax / quantity as real;
    Pricing(unitPrice, unitPrice + unitLineTax, lineTax)
  }

  /** A line of quantity 2, total 20 and tax 2 costs 10 a unit, 11 with tax. */
  lemma PriceLineExample()
    ensures PriceLine(20.0, Some(2.0), 2) == Pricing(10.0, 11.0, 2.0)
  {
  }

  /** The product a line maps to: found for the business and holding at least one variation. */
  function ResolveLineProduct(products: map<int, Product>, b: int, line: OrderLine): Option<Product> {
    match FindProduct(products, b, HardCodedProductId)
    case None => None
    case Some(p) => if |p.variations| == 0 then None else Some(p)
  }

  predicate Resolves(products: map<int, Product>, b: int, line: OrderLine) {
    ResolveLineProduct(products, b, line).Some?
  }

  predicate AllLinesResolve(products: map<int, Product>, b: int, lines: seq<OrderLine>) {
    forall i :: 0 <= i < |lines| ==> Resolves(products, b, lines[i])
  }

  /**
   * The product line for an order line: the product and its first variation, the
   * line's quantity and id, no tax rate, and prices that multiply back to the line's
   * total and tax.
   */
  function ProductLineFor(p: Product, line: OrderLine): (r: ProductLine)
    requires |p.variations| > 0 && line.quantity > 0
    ensures r.productId == p.id && r.variationId == p.variations[0].id && r.enableStock == p.enableStock
    ensures r.quantity == line.quantity && r.lineItemId == line.id && r.taxId == None
    ensures r.unitPrice * line.quantity as real == line.total
    ensures r.itemTax == (if line.totalTax.Some? then line.totalTax.value else 0.0)
    ensures (r.unitPriceIncTax - r.unitPrice) * line.quantity as real == r.itemTax
  {
    var price := PriceLine(line.total, line.totalTax, line.quantity);
    ProductLine(p.id, price.unitPrice, price.unitPriceIncTax, p.variations[0].id,
                line.quantity, p.enableStock, price.itemTax, None, line.id)
  }

  /** The request's `products` when every line resolves: one entry per order line, in order. */
  function MappedLines(products: map<int, Product>, b: int, lines: seq<OrderLine>): (r: seq<ProductLine>)
    requires AllLinesResolve(products, b, lines) && PositiveQuantities(lines)
    ensures |r| == |lines|
  {
    seq(|lines|, i requires 0 <= i < |lines| => ProductLineFor(ResolveLineProduct(products, b, lines[i]).value, lines[i]))
  }

  /**
   * With products stored under their own keys, every mapped line carries product 39,
   * owned by the business, and its first variation.
   */
  lemma MappedLinesShareProduct(products: map<int, Product>, b: int, lines: seq<OrderLine>)
    requires ProductsKeyed(products)
    requires AllLinesResolve(products, b, lines) && PositiveQuantities(lines)
    ensures lines != [] ==>
      HardCodedProductId in products && products[HardCodedProductId].businessId == b &&
      |products[HardCodedProductId].variations| > 0
    ensures forall i :: 0 <= i < |lines| ==>
      MappedLines(products, b, lines)[i].productId == HardCodedProductId &&
      MappedLines(products, b, lines)[i].variationId == products[HardCodedProductId].variations[0].id
  {
    if lines != [] {
      assert Resolves(products, b, lines[0]);
    }
  }

  /** The position of the first `false` among `flags`. */
  function FirstFalse(flags: seq<bool>): (k: nat)
    requires false in flags
    ensures k < |flags| && !flags[k]
    ensures forall j :: 0 <= j < k ==> flags[j]
  {
    if !flags[0] then 0
    else
      assert flags == [flags[0]] + flags[1..];
      1 + FirstFalse(flags[1..])
  }

  /** The index of the first line that does not resolve. */
  function FirstUnresolved(products: map<int, Product>, b: int, lines: seq<OrderLine>): (k: nat)
    requires !AllLinesResolve(products, b, lines)
    ensures k < |lines| && !Resolves(products, b, lines[k])
    ensures forall j :: 0 <= j < k ==> Resolves(products, b, lines[j])
  {
    var flags := seq(|lines|, i requires 0 <= i < |lines| => Resolves(products, b, lines[i]));
    assert false in flags by {
      var i :| 0 <= i < |lines| && !Resolves(products, b, lines[i]);
      assert flags[i] == false;
    }
    FirstFalse(flags)
  }

  /** `has_error` naming the line: `name . ' SKU:' . sku`. */
  function ProductLabel(line: OrderLine): string {
    line.name + " SKU:" + line.sku
  }

  function NotFoundError(products: map<int, Product>, b: int, order: Order): SaleError
    requires !AllLinesResolve(products, b, order.lineItems)
  {
    ProductNotFound(order.number, ProductLabel(order.lineItems[FirstUnresolved(products, b, order.lineItems)]))
  }

  /**
   * The quantities the loop divides by are positive. The price is computed before the
   * product check, so that is every line when all resolve, and otherwise every line
   * up to and including the first failing one.
   */
  predicate PricedQuantitiesPositive(products: map<int, Product>, b: int, lines: seq<OrderLine>) {
    if AllLinesResolve(products, b, lines) then PositiveQuantities(lines)
    else forall j :: 0 <= j <= FirstUnresolved(products, b, lines) ==> lines[j].quantity > 0
  }

  /**
   * The loop itself. It stops at the first line whose product is missing or has no
   * variation and returns that line's error; otherwise it returns every mapped line.
   */
  method MapOrderLines(products: map<int, Product>, b: int, order: Order)
    returns (r: Result<seq<ProductLine>, SaleError>)
    requires PricedQuantitiesPositive(products, b, order.lineItems)
    ensures r.Success? <==> AllLinesResolve(products, b, order.lineItems)
    ensures r.Success? ==> r.value == MappedLines(products, b, order.lineItems)
    ensures r.Failure? ==> r.error == NotFoundError(products, b, order)
    ensures r.Failure? ==> ErrorType(r.error) == "order_product_not_found"
  {
    var lines := order.lineItems;
    var productLines: seq<ProductLine> := [];
    for i := 0 to |lines|
      invariant |productLines| == i
      invariant forall j :: 0 <= j < i ==> Resolves(products, b, lines[j])
      invariant forall j :: 0 <= j < i ==>
        productLines[j] == ProductLineFor(ResolveLineProduct(products, b, lines[j]).value, lines[j])
    {
      var line := lines[i];
      assert line.quantity > 0 by {
        if !AllLinesResolve(products, b, lines) {
          var k := FirstUnresolved(products, b, lines);
          assert i <= k;
        }
      }
      var product := FindProduct(products, b, HardCodedProductId);
      var price := PriceLine(line.total, line.totalTax, line.quantity);
      if product.Some? {
        var p := product.value;
        if |p.variations| == 0 {
          return Failure(ProductNotFound(order.number, ProductLabel(line)));
        }
        productLines := productLines + [ProductLine(p.id, price.unitPrice, price.unitPriceIncTax, p.variations[0].id,
                                                    line.quantity, p.enableStock, price.itemTax, None, line.id)];
      } else {
        return Failure(ProductNotFound(order.number, ProductLabel(line)));
      }
    }
    return Success(productLines);
  }

  /**
   * Since every line is looked up under the same product id, either every line
   * resolves or the first one already fails: the error always names the first line.
   */
  lemma {:induction false} FailureNamesFirstLine(products: map<int, Product>, b: int, order: Order)
    requires !AllLinesResolve(products, b, order.lineItems)
    ensures FirstUnresolved(products, b, order.lineItems) == 0
    ensures NotFoundError(products, b, order) == ProductNotFound(order.number, ProductLabel(order.lineItems[0]))
  {
    var lines := order.lineItems;
    var k := FirstUnresolved(products, b, lines);
    assert ResolveLineProduct(products, b, lines[k]) == ResolveLineProduct(products, b, lines[0]);
  }
}
