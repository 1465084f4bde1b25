/**
 * The order webhook controller: `formatOrderToSale`, `createNewSaleFromOrder` and
 * `orderCreated`, over the tables of `Database`.
 */
module AccountsApi {
  import opened Wrappers
  import Php
  import opened Orders
  import opened Sales
  import opened Database
  import opened LineMapping
  import opened Customers
  import opened Shipping
  import opened Stock

  /** `$sell_status`: fixed, so the quotation branches of the sale header never apply. */
  const SellStatus := "final"
  const ShippingStatus := "ordered"
  /** The business location every synced sale is booked to. */
  const SaleLocationId := 1

  /** `snap` holds every field of `a` as given, and `first last` as the name. */
  predicate Copies(snap: AddressSnapshot, a: Address) {
    && snap.name == a.firstName + " " + a.lastName
    && snap.company == a.company && snap.line1 == a.address1 && snap.line2 == a.address2
    && snap.city == a.city && snap.state == a.state && snap.country == a.country
    && snap.zipCode == a.postcode
  }

  /** One address as stored in `order_addresses`: every field as given, empty or not. */
  function Snapshot(a: Address): AddressSnapshot {
    AddressSnapshot(a.firstName + " " + a.lastName, a.company, a.address1, a.address2,
                    a.city, a.state, a.country, a.postcode)
  }

  /**
   * `$addresses`, stored JSON-encoded as `order_addresses`. Unlike the address line,
   * nothing is filtered: both snapshots copy every field as given, with the name
   * as `first last` even when both parts are empty.
   */
  function AddressesOf(order: Order): (r: OrderAddresses)
    ensures Copies(r.shipping, order.shipping) && Copies(r.billing, order.billing)
  {
    OrderAddresses(Snapshot(order.shipping), Snapshot(order.billing))
  }

  /** The single payment: cash for the order total, updating a prior sell's first payment line. */
  function PaymentFor(order: Order, sell: Option<PriorSell>): (r: Payment)
    ensures r.paymentMethod == "cash" && r.amount == order.total
    ensures r.note == order.paymentMethodTitle && r.paidOn == order.datePaid
    ensures r.paymentId.Some? <==> sell.Some? && |sell.value.paymentLineIds| > 0
    ensures r.paymentId.Some? ==> r.paymentId.value == sell.value.paymentLineIds[0]
  {
    var paymentId := if sell.Some? && |sell.value.paymentLineIds| > 0 then Some(sell.value.paymentLineIds[0]) else None;
    Payment(order.total, "cash", order.paymentMethodTitle, order.datePaid, paymentId)
  }

  /**
   * `$new_sell_data` with its `products` and `payment`. Where the array literal sets
   * `shipping_charges` twice, the later entry (0 for an absent shipping total) is the one kept.
   */
  function SaleRequestFor(b: int, userId: int, order: Order, customer: Contact, products: seq<ProductLine>,
                          addressParts: seq<string>, titles: seq<string>, sell: Option<PriorSell>): (r: SaleRequest)
    ensures r.status == "final" && r.isQuotation == 0 && r.subStatus == None && r.paymentStatus == "paid"
    ensures r.invoiceNo == order.number && r.finalTotal == order.total && r.locationId == SaleLocationId
    ensures r.shippingCharges == (if order.shippingTotal.Some? then order.shippingTotal.value else 0.0)
    ensures r.businessId == b && r.contactId == customer.id && r.customerGroupId == customer.customerGroupId
    ensures r.products == products
    ensures r.shippingAddress == Php.Implode(", ", addressParts)
    ensures r.shippingDetails == Php.Implode(", ", titles)
    ensures |r.payment| == 1
    ensures r.payment[0].paymentMethod == "cash" && r.payment[0].amount == order.total
    ensures r.payment[0].note == order.paymentMethodTitle
    ensures r.payment[0].paymentId.Some? <==> sell.Some? && |sell.value.paymentLineIds| > 0
    ensures r.payment[0].paymentId.Some? ==> r.payment[0].paymentId.value == sell.value.paymentLineIds[0]
  {
    SaleRequest(
      b, SaleLocationId, customer.id, "fixed", order.discountTotal,
      if order.shippingTotal.Some? then order.shippingTotal.value else 0.0,
      order.total, userId,
      if SellStatus == "quotation" then "draft" else SellStatus,
      if SellStatus == "quotation" then 1 else 0,
      if SellStatus == "quotation" then Some("quotation") else None,
      "paid", "", order.dateCreated, customer.customerGroupId, None, None, None,
      order.number, AddressesOf(order),
      if titles != [] then Php.Implode(", ", titles) else "",
      ShippingStatus,
      Php.Implode(", ", addressParts),
      products, [PaymentFor(order, sell)])
  }

  /**
   * `formatOrderToSale`. The line loop runs first: on an unresolved line the error
   * for the first such line is returned and no table has changed. Otherwise the
   * customer is found or created and the request assembled.
   */
  method FormatOrderToSale(db: Store, b: int, userId: int, order: Order, sell: Option<PriorSell>)
    returns (r: Result<SaleRequest, SaleError>)
    requires db.Valid()
    requires PricedQuantitiesPositive(db.products, b, order.lineItems)
    modifies db
    ensures db.Valid()
    ensures r.Failure? <==> !AllLinesResolve(old(db.products), b, order.lineItems)
    ensures r.Failure? ==> r.error == NotFoundError(old(db.products), b, order) && db.State() == old(db.State())
    ensures r.Success? ==>
      var res := ResolveCustomerSpec(old(db.State()), b, userId, order.billing);
      && db.State() == res.tables
      && r.value == SaleRequestFor(b, userId, order, res.customer, MappedLines(old(db.products), b, order.lineItems),
                                   ShippingAddressParts(order.shipping), MethodTitles(order.shippingLines), sell)
  {
    var productLines := MapOrderLines(db.products, b, order);
    if productLines.Failure? {
      return Failure(productLines.error);
    }
    var customer := ResolveCustomer(db, b, userId, order.billing);
    var addressParts := CollectShippingAddress(order.shipping);
    var titles := CollectShippingTitles(order.shippingLines);
    assert titles == MethodTitles(order.shippingLines);
    return Success(SaleRequestFor(b, userId, order, customer, productLines.value, addressParts, titles, sell));
  }

  /** The sell row a committed order leaves behind: lines, payment, and paid. */
  function RecordedSale(id: nat, b: int, request: SaleRequest, total: real, userId: int): Sale {
    Sale(id, b, request, total, 0.0, userId, "paid", request.products, request.payment)
  }

  /**
   * What `createNewSaleFromOrder` does to the tables and what it returns.
   * An unresolved line changes nothing. Otherwise the customer step stands; then
   * either the purchase-sell matching fails and the sale and stock changes are
   * rolled back to the savepoint taken after the customer step (the sale id it
   * drew stays used), or the sale is recorded as paid and the stock decreased.
   */
  ghost predicate SaleEffect(before: Tables, after: Tables, b: int, userId: int, order: Order,
                             mismatch: Option<string>, r: CreateResult)
    requires PricedQuantitiesPositive(before.products, b, order.lineItems)
    ensures SaleEffect(before, after, b, userId, order, mismatch, r) ==>
      after.products == before.products && after.businesses == before.businesses
    ensures SaleEffect(before, after, b, userId, order, mismatch, r) ==>
      (r == Created <==> AllLinesResolve(before.products, b, order.lineItems) && mismatch.None?)
    ensures SaleEffect(before, after, b, userId, order, mismatch, r) && r.Failed? ==>
      after.sales == before.sales && after.stock == before.stock
  {
    if !AllLinesResolve(before.products, b, order.lineItems) then
      after == before && r == Failed(NotFoundError(before.products, b, order))
    else
      var res := ResolveCustomerSpec(before, b, userId, order.billing);
      var request := SaleRequestFor(b, userId, order, res.customer, MappedLines(before.products, b, order.lineItems),
                                    ShippingAddressParts(order.shipping), MethodTitles(order.shippingLines), None);
      var t := res.tables;
      match mismatch
      case Some(msg) =>
        after == t.(nextSaleId := t.nextSaleId + 1) && r == Failed(InsufficientQuantity(order.number, msg))
      case None =>
        && r == Created
        && after == t.(stock := StockAfter(t.stock, request.products, SaleLocationId),
                       sales := t.sales + [RecordedSale(t.nextSaleId, b, request, order.total, userId)],
                       nextSaleId := t.nextSaleId + 1)
  }

  /**
   * Lines 83-130 of `createNewSaleFromOrder`, once the request is formatted: the sale
   * transaction. The sell row, its lines and its payment are written; for a final sale
   * the stock of stock-tracked lines is decreased and the sale marked paid, and a
   * purchase-sell mismatch rolls all of it back.
   */
  method RecordSale(db: Store, b: int, userId: int, request: SaleRequest, total: real, orderNumber: string,
                    mismatch: Option<string>) returns (r: CreateResult)
    requires db.Valid()
    modifies db
    ensures db.Valid()
    ensures request.status == "final" && mismatch.Some? ==>
      r == Failed(InsufficientQuantity(orderNumber, mismatch.value)) &&
      db.State() == old(db.State()).(nextSaleId := old(db.nextSaleId) + 1)
    ensures request.status == "final" && mismatch.None? ==>
      r == Created &&
      db.State() == old(db.State()).(
        stock := StockAfter(old(db.stock), request.products, request.locationId),
        sales := old(db.sales) + [RecordedSale(old(db.nextSaleId), b, request, total, userId)],
        nextSaleId := old(db.nextSaleId) + 1)
    ensures request.status != "final" ==>
      r == Created &&
      db.State() == old(db.State()).(
        sales := old(db.sales) + [Sale(old(db.nextSaleId), b, request, total, 0.0, userId, request.paymentStatus,
                                       request.products, request.payment)],
        nextSaleId := old(db.nextSaleId) + 1)
  {
    // DB::beginTransaction()
    var savepoint := db.State();
    var id := db.CreateSellTransaction(b, request, total, 0.0, userId);
    db.CreateOrUpdateSellLines(request.products);
    db.CreateOrUpdatePaymentLines(request.payment);
    if request.status == "final" {
      DecreaseStock(db, request.products, request.locationId);
      db.SetPaymentStatus("paid");
      if mismatch.Some? {
        // DB::rollBack()
        db.Restore(savepoint);
        return Failed(InsufficientQuantity(orderNumber, mismatch.value));
      }
    }
    // DB::commit()
    return Created;
  }

  /**
   * `createNewSaleFromOrder`. `mismatch` stands for `mapPurchaseSell`: `Some(msg)` when
   * it throws `PurchaseSellMismatch` with that message, `None` when it succeeds.
   */
  method CreateNewSaleFromOrder(db: Store, b: int, userId: int, order: Order, mismatch: Option<string>)
    returns (r: CreateResult)
    requires db.Valid()
    requires PricedQuantitiesPositive(db.products, b, order.lineItems)
    modifies db
    ensures db.Valid()
    ensures SaleEffect(old(db.State()), db.State(), b, userId, order, mismatch, r)
  {
    ghost var before := db.State();
    var input := FormatOrderToSale(db, b, userId, order, None);
    if input.Failure? {
      UnresolvedIsSaleEffect(before, db.State(), b, userId, order);
      return Failed(input.error);
    }
    r := RecordSale(db, b, userId, input.value, order.total, order.number, mismatch);
    if mismatch.Some? {
      RolledBackIsSaleEffect(before, db.State(), b, userId, order, mismatch.value);
    } else {
      CommittedIsSaleEffect(before, db.State(), b, userId, order, input.value);
    }
  }

  /** An unresolved line: nothing changed, and the first such line is reported. */
  lemma UnresolvedIsSaleEffect(before: Tables, after: Tables, b: int, userId: int, order: Order)
    requires PricedQuantitiesPositive(before.products, b, order.lineItems)
    requires !AllLinesResolve(before.products, b, order.lineItems)
    requires after == before
    ensures forall mismatch :: SaleEffect(before, after, b, userId, order, mismatch, Failed(NotFoundError(before.products, b, order)))
  {
  }

  /** The tables a rollback leaves: the customer step of `before` and one sale id used up. */
  lemma RolledBackIsSaleEffect(before: Tables, after: Tables, b: int, userId: int, order: Order, msg: string)
    requires PositiveQuantities(order.lineItems)
    requires AllLinesResolve(before.products, b, order.lineItems)
    requires var t := ResolveCustomerSpec(before, b, userId, order.billing).tables;
      after == t.(nextSaleId := t.nextSaleId + 1)
    ensures SaleEffect(before, after, b, userId, order, Some(msg), Failed(InsufficientQuantity(order.number, msg)))
  {
  }

  /** The tables a commit leaves: the customer step, then the paid sale and the stock decrease. */
  lemma CommittedIsSaleEffect(before: Tables, after: Tables, b: int, userId: int, order: Order, request: SaleRequest)
    requires PositiveQuantities(order.lineItems)
    requires AllLinesResolve(before.products, b, order.lineItems)
    requires var res := ResolveCustomerSpec(before, b, userId, order.billing);
      request == SaleRequestFor(b, userId, order, res.customer, MappedLines(before.products, b, order.lineItems),
                                ShippingAddressParts(order.shipping), MethodTitles(order.shippingLines), None)
    requires var t := ResolveCustomerSpec(before, b, userId, order.billing).tables;
      after == t.(stock := StockAfter(t.stock, request.products, SaleLocationId),
                  sales := t.sales + [RecordedSale(t.nextSaleId, b, request, order.total, userId)],
                  nextSaleId := t.nextSaleId + 1)
    ensures SaleEffect(before, after, b, userId, order, None, Created)
  {
  }

  /**
   * A committed order records exactly one new sale, paid, carrying the mapped lines
   * and the one payment. The stock rows afterwards are the old ones and those a
   * stock-tracked line draws on, and each holds its old stock (0 for a new row) less
   * exactly the quantity of the stock-tracked lines on it.
   */
  lemma {:induction false} CommittedSaleEffect(before: Tables, after: Tables, b: int, userId: int, order: Order, r: CreateResult)
    requires PositiveQuantities(order.lineItems)
    requires AllLinesResolve(before.products, b, order.lineItems)
    requires SaleEffect(before, after, b, userId, order, None, r)
    ensures r == Created
    ensures |after.sales| == |before.sales| + 1 && after.sales[..|before.sales|] == before.sales
    ensures var sale := after.sales[|before.sales|];
      && sale.paymentStatus == "paid" && sale.request.status == "final"
      && sale.sellLines == MappedLines(before.products, b, order.lineItems)
      && |sale.payments| == 1 && sale.payments[0].amount == order.total
    ensures forall key :: (key in after.stock <==>
      key in before.stock || Touches(MappedLines(before.products, b, order.lineItems), key, SaleLocationId))
    ensures forall key :: (Stored(after.stock, key) ==
      Stored(before.stock, key) - TrackedQuantity(MappedLines(before.products, b, order.lineItems), key, SaleLocationId))
  {
    var lines := MappedLines(before.products, b, order.lineItems);
    var t := ResolveCustomerSpec(before, b, userId, order.billing).tables;
    assert t.stock == before.stock && t.sales == before.sales;
    forall key | true
      ensures key in StockAfter(before.stock, lines, SaleLocationId) <==>
        key in before.stock || Touches(lines, key, SaleLocationId)
      ensures Stored(StockAfter(before.stock, lines, SaleLocationId), key) ==
        Stored(before.stock, key) - TrackedQuantity(lines, key, SaleLocationId)
    {
      StockAfterAt(before.stock, lines, SaleLocationId, key);
    }
  }

  /**
   * A failed purchase-sell match leaves sales and stock as they were, but the
   * customer created for the order stays, since the savepoint is taken after it,
   * and the sale id the rolled-back sale drew is not handed out again.
   */
  lemma RolledBackSaleKeepsCustomer(before: Tables, after: Tables, b: int, userId: int, order: Order, msg: string, r: CreateResult)
    requires PositiveQuantities(order.lineItems)
    requires AllLinesResolve(before.products, b, order.lineItems)
    requires SaleEffect(before, after, b, userId, order, Some(msg), r)
    ensures r == Failed(InsufficientQuantity(order.number, msg))
    ensures after.sales == before.sales && after.stock == before.stock
    ensures after.nextSaleId == before.nextSaleId + 1
    ensures after.contacts == ResolveCustomerSpec(before, b, userId, order.billing).tables.contacts
  {
  }

  /**
   * Nothing de-duplicates a redelivered order: delivering the same order twice, both
   * times committed, records two sales with the same invoice number. With a billing
   * phone, the second delivery finds a customer and creates none.
   */
  lemma {:induction false} RedeliveryRecordsTwoSales(t0: Tables, t1: Tables, t2: Tables, b: int, userId: int,
                                                     order: Order, r1: CreateResult, r2: CreateResult)
    requires PositiveQuantities(order.lineItems)
    requires AllLinesResolve(t0.products, b, order.lineItems)
    requires SaleEffect(t0, t1, b, userId, order, None, r1)
    requires SaleEffect(t1, t2, b, userId, order, None, r2)
    ensures r1 == Created && r2 == Created
    ensures |t2.sales| == |t0.sales| + 2
    ensures t2.sales[|t0.sales|].request.invoiceNo == order.number
    ensures t2.sales[|t0.sales| + 1].request.invoiceNo == order.number
    ensures !Php.Empty(order.billing.phone) ==> |t2.contacts| == |t1.contacts|
  {
    var res1 := ResolveCustomerSpec(t0, b, userId, order.billing);
    assert t1.products == t0.products;
    assert t1.contacts == res1.tables.contacts;
    if !Php.Empty(order.billing.phone) {
      var found := LookupCustomer(t0.contacts, b, order.billing.phone);
      var k: nat;
      if found.Some? {
        k := found.value;
      } else {
        k := |t0.contacts|;
        assert t1.contacts[k] == res1.customer;
      }
      assert CustomerMatches(t1.contacts[k], b, order.billing.phone);
      assert LookupCustomer(t1.contacts, b, order.billing.phone).Some?;
    }
  }

  datatype Fault = BusinessNotFound(businessId: int)

  datatype ResponseBody =
    | Message(message: string)
    | ErrorMessage(message: string, error: Fault)

  datatype Response = Response(status: int, body: ResponseBody)

  /**
   * `orderCreated`. An unknown business is the one exception of this flow: it yields
   * 500 and changes nothing. Otherwise the sale is created for the business owner
   * and the answer is 200, whatever `createNewSaleFromOrder` returned.
   */
  method OrderCreated(db: Store, b: int, order: Order, mismatch: Option<string>) returns (resp: Response)
    requires db.Valid()
    requires b in db.businesses ==> PricedQuantitiesPositive(db.products, b, order.lineItems)
    modifies db
    ensures db.Valid()
    ensures b !in old(db.businesses) ==>
      resp == Response(500, ErrorMessage("Error occured!", BusinessNotFound(b))) && db.State() == old(db.State())
    ensures b in old(db.businesses) ==>
      && resp == Response(200, Message("Order has been created successfully"))
      && exists r :: SaleEffect(old(db.State()), db.State(), b, old(db.businesses)[b].ownerId, order, mismatch, r)
  {
    if b !in db.businesses {
      return Response(500, ErrorMessage("Error occured!", BusinessNotFound(b)));
    }
    var userId := db.businesses[b].ownerId;
    var created := CreateNewSaleFromOrder(db, b, userId, order, mismatch);
    return Response(200, Message("Order has been created successfully"));
  }
}
