/**
 * The database tables the order controller reads and writes, and the primitive
 * operations it performs on them through the ORM and the transaction utility.
 * Those utilities' own code is not part of this model: each is stated here by
 * the change it makes to the tables.
 */
module Database {
  import opened Wrappers
  import opened Sales

  datatype Variation = Variation(id: int)

  datatype Product = Product(id: int, businessId: int, enableStock: bool, variations: seq<Variation>)

  datatype Business = Business(ownerId: int, accountingMethod: string)

  datatype ContactType = Customer | Supplier | Both

  /** A contacts row; `refNo` is the reference count its `contact_id` code was generated from. */
  datatype Contact = Contact(
    id: nat,
    businessId: int,
    contactType: ContactType,
    firstName: Option<string>,
    lastName: string,
    name: Option<string>,
    email: Option<string>,
    refNo: nat,
    mobile: string,
    city: Option<string>,
    state: Option<string>,
    country: Option<string>,
    createdBy: int,
    addressLine1: Option<string>,
    addressLine2: Option<string>,
    zipCode: Option<string>,
    customerGroupId: Option<int>)

  /** Stock is kept per variation and business location. */
  datatype StockKey = StockKey(variationId: int, locationId: int)

  /** A snapshot of every table, as a transaction savepoint records it. */
  datatype Tables = Tables(
    businesses: map<int, Business>,
    products: map<int, Product>,
    contacts: seq<Contact>,
    refCounts: map<int, nat>,
    nextContactId: nat,
    stock: map<StockKey, int>,
    sales: seq<Sale>,
    nextSaleId: nat)

  /** The contacts reference count of a business; a business without one starts at 0. */
  function RefCount(refCounts: map<int, nat>, b: int): nat {
    if b in refCounts then refCounts[b] else 0
  }

  /** Every product is stored under its own primary key. */
  predicate ProductsKeyed(products: map<int, Product>) {
    forall k :: k in products ==> products[k].id == k
  }

  /**
   * Products sit under their own keys, auto-increment keys are above every stored
   * key, and no contact of a business carries a reference number the business's
   * counter has not yet handed out.
   */
  ghost predicate Consistent(t: Tables) {
    && ProductsKeyed(t.products)
    && (forall i :: 0 <= i < |t.contacts| ==>
          t.contacts[i].id < t.nextContactId &&
          t.contacts[i].refNo <= RefCount(t.refCounts, t.contacts[i].businessId))
    && (forall i :: 0 <= i < |t.sales| ==> t.sales[i].id < t.nextSaleId)
  }

  /** The `OnlyCustomers` scope: contacts of type customer or both. */
  predicate IsCustomer(c: Contact) {
    c.contactType == Customer || c.contactType == Both
  }

  predicate CustomerMatches(c: Contact, b: int, mobile: string) {
    c.businessId == b && c.mobile == mobile && IsCustomer(c)
  }

  /**
   * `Contact::where('business_id', b)->where('mobile', mobile)->OnlyCustomers()->first()`,
   * searching the rows from index `from` on: the first matching row, if any.
   */
  function FindCustomer(contacts: seq<Contact>, b: int, mobile: string, from: nat): (r: Option<nat>)
    requires from <= |contacts|
    ensures r.Some? ==>
      && from <= r.value < |contacts|
      && CustomerMatches(contacts[r.value], b, mobile)
      && forall j :: from <= j < r.value ==> !CustomerMatches(contacts[j], b, mobile)
    ensures r.None? ==> forall j :: from <= j < |contacts| ==> !CustomerMatches(contacts[j], b, mobile)
    decreases |contacts| - from
  {
    if from == |contacts| then None
    else if CustomerMatches(contacts[from], b, mobile) then Some(from)
    else FindCustomer(contacts, b, mobile, from + 1)
  }

  /** `Product::where('business_id', b)->where('id', id)->first()`. */
  function FindProduct(products: map<int, Product>, b: int, id: int): (r: Option<Product>)
    ensures r.Some? <==> id in products && products[id].businessId == b
    ensures r.Some? ==> r.value == products[id]
  {
    if id in products && products[id].businessId == b then Some(products[id]) else None
  }

  /** The stock a row holds; a (variation, location) pair without a row holds 0. */
  function Stored(stock: map<StockKey, int>, key: StockKey): int {
    if key in stock then stock[key] else 0
  }

  /** Decreasing the stock of a (variation, location) row; a missing row is created at 0 first. */
  function DecreaseAt(stock: map<StockKey, int>, key: StockKey, qty: nat): (r: map<StockKey, int>)
    ensures r.Keys == stock.Keys + {key}
    ensures r[key] == Stored(stock, key) - qty
    ensures forall k :: k in stock && k != key ==> r[k] == stock[k]
  {
    stock[key := Stored(stock, key) - qty]
  }

  class Store {
    var businesses: map<int, Business>
    var products: map<int, Product>
    var contacts: seq<Contact>
    var refCounts: map<int, nat>
    var nextContactId: nat
    var stock: map<StockKey, int>
    var sales: seq<Sale>
    var nextSaleId: nat

    function State(): Tables
      reads this
    {
      Tables(businesses, products, contacts, refCounts, nextContactId, stock, sales, nextSaleId)
    }

    ghost predicate Valid()
      reads this
    {
      Consistent(State())
    }

    constructor (t: Tables)
      requires Consistent(t)
      ensures Valid() && State() == t
    {
      businesses, products := t.businesses, t.products;
      contacts, refCounts, nextContactId := t.contacts, t.refCounts, t.nextContactId;
      stock, sales, nextSaleId := t.stock, t.sales, t.nextSaleId;
    }

    /**
     * `DB::rollBack()`: every table returns to the savepoint `t`. The database does
     * not roll back auto-increment counters, so the next contact and sale ids stay
     * where they are.
     */
    method Restore(t: Tables)
      modifies this
      ensures State() == t.(nextContactId := old(nextContactId), nextSaleId := old(nextSaleId))
    {
      businesses, products := t.businesses, t.products;
      contacts, refCounts := t.contacts, t.refCounts;
      stock, sales := t.stock, t.sales;
    }

    /** `setAndGetReferenceCount('contacts', b)`: bumps the business's counter and returns it. */
    method SetAndGetReferenceCount(b: int) returns (n: nat)
      requires Valid()
      modifies this
      ensures Valid()
      ensures n == RefCount(old(refCounts), b) + 1
      ensures State() == old(State()).(refCounts := old(refCounts)[b := n])
    {
      n := RefCount(refCounts, b) + 1;
      refCounts := refCounts[b := n];
    }

    /** `Contact::create($data)`: inserts the row under the next auto-increment id. */
    method CreateContact(data: Contact) returns (c: Contact)
      requires Valid()
      requires data.refNo <= RefCount(refCounts, data.businessId)
      modifies this
      ensures Valid()
      ensures c == data.(id := old(nextContactId))
      ensures State() == old(State()).(contacts := old(contacts) + [c], nextContactId := old(nextContactId) + 1)
    {
      c := data.(id := nextContactId);
      contacts := contacts + [c];
      nextContactId := nextContactId + 1;
    }

    /**
     * `createSellTransaction(...)` followed by `save()`: a new sell row, without
     * lines or payments yet, whose payment status is the request's.
     */
    method CreateSellTransaction(b: int, request: SaleRequest, totalBeforeTax: real, tax: real, userId: int)
      returns (id: nat)
      requires Valid()
      modifies this
      ensures Valid()
      ensures id == old(nextSaleId)
      ensures State() == old(State()).(
        sales := old(sales) + [Sale(id, b, request, totalBeforeTax, tax, userId, request.paymentStatus, [], [])],
        nextSaleId := id + 1)
    {
      id := nextSaleId;
      sales := sales + [Sale(id, b, request, totalBeforeTax, tax, userId, request.paymentStatus, [], [])];
      nextSaleId := nextSaleId + 1;
    }

    /** `createOrUpdateSellLines($transaction, ...)` on the sell just created. */
    method CreateOrUpdateSellLines(lines: seq<ProductLine>)
      requires Valid() && sales != []
      modifies this
      ensures Valid()
      ensures State() == old(State()).(
        sales := old(sales)[|old(sales)| - 1 := old(sales)[|old(sales)| - 1].(sellLines := lines)])
    {
      sales := sales[|sales| - 1 := sales[|sales| - 1].(sellLines := lines)];
    }

    /** `createOrUpdatePaymentLines($transaction, ...)` on the sell just created. */
    method CreateOrUpdatePaymentLines(payments: seq<Payment>)
      requires Valid() && sales != []
      modifies this
      ensures Valid()
      ensures State() == old(State()).(
        sales := old(sales)[|old(sales)| - 1 := old(sales)[|old(sales)| - 1].(payments := payments)])
    {
      sales := sales[|sales| - 1 := sales[|sales| - 1].(payments := payments)];
    }

    /** `$transaction->payment_status = $status; $transaction->save()`. */
    method SetPaymentStatus(status: string)
      requires Valid() && sales != []
      modifies this
      ensures Valid()
      ensures State() == old(State()).(
        sales := old(sales)[|old(sales)| - 1 := old(sales)[|old(sales)| - 1].(paymentStatus := status)])
    {
      sales := sales[|sales| - 1 := sales[|sales| - 1].(paymentStatus := status)];
    }

    /** `decreaseProductQuantity(product, variation, location, qty)`. */
    method DecreaseProductQuantity(variationId: int, locationId: int, qty: nat)
      requires Valid()
      modifies this
      ensures Valid()
      ensures State() == old(State()).(stock := DecreaseAt(old(stock), StockKey(variationId, locationId), qty))
    {
      stock := DecreaseAt(stock, StockKey(variationId, locationId), qty);
    }
  }
}
