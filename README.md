# Order-to-sale reconciliation of the accounts API

A Dafny model of the order webhook in `app/Http/Controllers/AccountsApi.php`. The
webhook receives an external store order (a WooCommerce-shaped record) and turns it
into a sale of the point-of-sale system:

- `formatOrderToSale` maps every order line to a product line. The mapping is
  all-or-nothing, and each line gets per-unit price and tax. It then finds or creates
  the customer by billing phone, builds the shipping strings, and assembles the sale
  request with exactly one payment.
- `createNewSaleFromOrder` stops early on a mapping error. Otherwise it records the
  sale, decreases the stock of stock-tracked lines and marks the sale paid. It rolls
  the sale back when purchase-sell matching fails.
- `orderCreated` is the HTTP entry point and picks the response.

Layout, one module per file:

- `wrappers.dfy`: `Option` and `Result`.
- `php.dfy`: PHP's `empty()` on strings, `trim()` and `implode()`, with lemmas.
- `orders.dfy`: the decoded order payload.
- `sales.dfy`: the sale request, its product lines and payment, stored sales, and
  the error arrays.
- `database.dfy`: the tables (businesses, products, contacts, reference counters,
  stock per variation and location, sales), plus the class `Store` that holds them.
  `Store` carries the primitive ORM and transaction-utility operations the
  controller calls, each stated as the change it makes to the tables.
- `line_mapping.dfy`, `customers.dfy`, `shipping.dfy`, `stock.dfy`: the stages of
  the flow.
- `accounts_api.dfy`: the three controller methods.

The controller's methods are Dafny methods that modify the `Store`. Each one is
proved against a specification function or predicate of the tables before and
after (`ResolveCustomerSpec`, `StockAfter`, `SaleEffect`). The lemmas then state
what the source promises about those specifications.

The `Store` has one rollback point. `DB::rollBack()` restores the tables as they
were at the `DB::beginTransaction()` of line 88. That call comes after the customer
step, so a rolled-back sale keeps a customer that was created for it. This matches
a savepoint inside the outer transaction that `orderCreated` opens.

The 200 response of `orderCreated` carries only the success message. The error
returned by `createNewSaleFromOrder` is computed into `$create_error_data` at line 57
and never used. The model follows the code here.

## Model

| member | source | states |
|---|---|---|
| `Php.Empty` | app/Http/Controllers/AccountsApi.php:225 | `empty()` holds of a string only when it has at most one character, and a one-character string is empty exactly when it is "0" |
| `Php.Trim` | app/Http/Controllers/AccountsApi.php:254 | `trim()` gives "" exactly when every character of the input is one of PHP's default trim characters |
| `Php.Implode` | app/Http/Controllers/AccountsApi.php:338-340 | no parts join to "", a single part is returned unchanged, and the joined string starts with the first part |
| `Php.ImplodeEndsWithLast` | app/Http/Controllers/AccountsApi.php:340 | the joined string ends with the last part |
| `Php.ImplodeSnoc` | app/Http/Controllers/AccountsApi.php:338-340 | joining one more part adds the separator and then that part; a single part is joined to itself |
| `Php.ImplodeRecoversParts` | app/Http/Controllers/AccountsApi.php:340 | each part can be found again in the joined string, at its computed offset |
| `Php.ImplodeSeparatesParts` | app/Http/Controllers/AccountsApi.php:340 | every part except the last is followed by the separator in the joined string |
| `Database.FindProduct` | app/Http/Controllers/AccountsApi.php:160-163 | a product is found exactly when a row with that id exists and belongs to the business, and then it is that row |
| `Database.FindCustomer` | app/Http/Controllers/AccountsApi.php:226-229 | the contact lookup returns the first row that is a customer of the business with that mobile, or nothing when no row matches |
| `Database.Store.SetAndGetReferenceCount` | app/Http/Controllers/AccountsApi.php:233 | the business's contacts counter goes up by one and the new value is returned; nothing else changes |
| `Database.Store.CreateContact` | app/Http/Controllers/AccountsApi.php:258 | exactly one contact row is appended, under the next auto-increment id |
| `Database.Store.CreateSellTransaction` | app/Http/Controllers/AccountsApi.php:90-91 | one sell row is appended under the next id, with the request's payment status |
| `Database.Store.CreateOrUpdateSellLines` | app/Http/Controllers/AccountsApi.php:94 | the new sell's lines become the request's products |
| `Database.Store.CreateOrUpdatePaymentLines` | app/Http/Controllers/AccountsApi.php:96 | the new sell's payment lines become the request's payment |
| `Database.Store.SetPaymentStatus` | app/Http/Controllers/AccountsApi.php:112-113 | the new sell's payment status is set; nothing else changes |
| `Database.Store.DecreaseProductQuantity` | app/Http/Controllers/AccountsApi.php:102-107 | the stock of one (variation, location) row drops by the quantity, a missing row being created at 0 first; every other row is unchanged |
| `Database.Store.Restore` | app/Http/Controllers/AccountsApi.php:118 | rollback: every table is back to the savepoint, except the contact and sale auto-increment counters, which the database does not roll back |
| `LineMapping.ProductLineFor` | app/Http/Controllers/AccountsApi.php:185-195 | the entry carries the product's id, its first variation, its stock flag, the line's quantity and id and no tax id; unit price times quantity is the line total, and the tax-inclusive unit price exceeds it by the item tax spread over the quantity |
| `LineMapping.PriceLine` | app/Http/Controllers/AccountsApi.php:165-168 | unit price times quantity is the line total; item tax is the line tax, or 0 when absent; the tax-inclusive unit price exceeds the unit price by the line tax over the quantity |
| `LineMapping.PriceLineExample` | app/Http/Controllers/AccountsApi.php:165-168 | total 20, tax 2, quantity 2 gives unit price 10 and 11 with tax |
| `LineMapping.MappedLines` | app/Http/Controllers/AccountsApi.php:185-197 | one product line per order line |
| `LineMapping.MappedLinesShareProduct` | app/Http/Controllers/AccountsApi.php:159-197 | with products stored under their own keys, every mapped line carries product 39 (of the business) and its first variation |
| `LineMapping.FirstUnresolved` | app/Http/Controllers/AccountsApi.php:158-206 | the reported line is one that does not resolve, and every line before it resolves |
| `LineMapping.MapOrderLines` | app/Http/Controllers/AccountsApi.php:158-207 | success exactly when every line's product exists and has a variation; then one entry per line, in order, each using the first variation and the external line id; otherwise an error of type `order_product_not_found` with the order number and `name SKU:sku` of the first failing line. Only the quantities the loop divides by, those up to the first failing line, must be positive |
| `LineMapping.FailureNamesFirstLine` | app/Http/Controllers/AccountsApi.php:159-163 | with the product id fixed at 39, a mapping failure always names the first order line |
| `Customers.LookupCustomer` | app/Http/Controllers/AccountsApi.php:225-230 | the lookup runs only for a non-empty billing phone and yields the first matching customer |
| `Customers.NewCustomerData` | app/Http/Controllers/AccountsApi.php:209-257 | a new contact has type customer, the fresh reference number, the billing phone and `first last` as name; when that name trims to empty, the email becomes first name and name |
| `Customers.BlankNameUsesEmail` | app/Http/Controllers/AccountsApi.php:253-257 | billing names made only of blanks make the email the contact's name and first name |
| `Customers.ResolveCustomerSpec` | app/Http/Controllers/AccountsApi.php:225-259 | a found customer is reused and no table changes; otherwise the counter advances and exactly one customer is appended, carrying the new count and the next contact id |
| `Customers.ResolutionKeepsConsistent` | app/Http/Controllers/AccountsApi.php:232-259 | the customer step keeps every contact id below the next auto-increment id and every reference number within its business's counter |
| `Customers.NewCustomerIsUnique` | app/Http/Controllers/AccountsApi.php:233-234 | a created customer's reference number and id are used by no other contact of the business |
| `Customers.ResolveCustomer` | app/Http/Controllers/AccountsApi.php:225-259 | the find-or-create calls have exactly the effect of `ResolveCustomerSpec` |
| `Shipping.ShippingAddressPartsNonEmpty` | app/Http/Controllers/AccountsApi.php:263-287 | the address has at most eight parts; none is empty; each is the name or a shipping field |
| `Shipping.ShippingAddressPartsComplete` | app/Http/Controllers/AccountsApi.php:263-287 | conversely, the name is a part when the first name is non-empty, and so is every non-empty shipping field |
| `Shipping.CollectShippingAddress` | app/Http/Controllers/AccountsApi.php:263-287 | the parts are the included fields in the fixed order: name (when the first name is non-empty), company, address 1, address 2, city, state, country, postcode |
| `Shipping.CollectShippingTitles` | app/Http/Controllers/AccountsApi.php:309-314 | one title per shipping line, in order |
| `Stock.StockAfter` | app/Http/Controllers/AccountsApi.php:100-109 | every stock row present before the loop is still present after it |
| `Stock.StockAfterAt` | app/Http/Controllers/AccountsApi.php:98-109 | the rows afterwards are the old ones and those a stock-tracked line draws on; each holds its old stock (0 for a new row) less exactly the total quantity of the stock-tracked lines on it |
| `Stock.DecreaseStock` | app/Http/Controllers/AccountsApi.php:98-109 | the loop leaves the stock equal to `StockAfter` of the old stock; no other table changes |
| `Stock.StockLoopAsWritten` | app/Http/Controllers/AccountsApi.php:100-108 | as written, the loop aborts exactly when some line is stock-tracked, and it aborts at the first such line |
| `Stock.AsWrittenStockLoopFails` | app/Http/Controllers/AccountsApi.php:102 | a one-line order for a stock-tracked product maps, aborts the loop as written at that line, and is decreased by one by the intended operation |
| `AccountsApi.AddressesOf` | app/Http/Controllers/AccountsApi.php:288-307 | both halves of `order_addresses` copy every field of the shipping and billing address as given, empty or not, with `first last` as the name |
| `AccountsApi.PaymentFor` | app/Http/Controllers/AccountsApi.php:343-360 | one cash payment of the order total, noted with the payment method title and paid on the order's payment date; it carries a payment id exactly when a prior sell has a payment line, and then the first one's |
| `AccountsApi.SaleRequestFor` | app/Http/Controllers/AccountsApi.php:316-363 | status final, not a quotation, paid; invoice number and final total from the order; location 1; shipping charges from the later key, 0 when absent; shipping strings joined by ", "; exactly one cash payment of the order total, noted with the payment method title; the payment id comes from a prior sell's first payment line only |
| `AccountsApi.FormatOrderToSale` | app/Http/Controllers/AccountsApi.php:141-366 | fails exactly when a line does not resolve, and then returns that line's error with no table changed; otherwise the customer step and the assembled request |
| `AccountsApi.RecordSale` | app/Http/Controllers/AccountsApi.php:83-130 | the sale transaction. For a final sale, a mismatch leaves every table as before, except that the drawn sale id stays used, with `order_insuficient_product_qty`; otherwise one sell row is appended, paid, with the request's lines and payment, under the next id, and the stock is decreased by `StockAfter`. A non-final request would be committed without a stock change, keeping its own payment status |
| `AccountsApi.SaleEffect` | app/Http/Controllers/AccountsApi.php:75-131 | whatever the outcome, products and businesses are unchanged; the result is `Created` exactly when every line resolves and the purchase-sell matching succeeds; a failed result leaves sales and stock as they were |
| `AccountsApi.CreateNewSaleFromOrder` | app/Http/Controllers/AccountsApi.php:75-131 | the tables and result satisfy `SaleEffect`: unchanged on a mapping error; on a mismatch, rolled back to after the customer step (one sale id used up) with `order_insuficient_product_qty`; otherwise one paid sale recorded and stock decreased |
| `AccountsApi.CommittedSaleEffect` | app/Http/Controllers/AccountsApi.php:98-130 | a committed order adds exactly one paid sale with the mapped lines and one payment; every stock row, a new one counted from 0, drops by exactly the tracked quantity on it, and only rows a tracked line draws on are added |
| `AccountsApi.RolledBackSaleKeepsCustomer` | app/Http/Controllers/AccountsApi.php:115-125 | after a failed match, sales and stock are as before, the customer step stays, and the next sale id has moved on by one |
| `AccountsApi.RedeliveryRecordsTwoSales` | app/Http/Controllers/AccountsApi.php:75-131 | the same order delivered twice records two sales with the same invoice number; with a phone, the second delivery creates no contact |
| `AccountsApi.OrderCreated` | app/Http/Controllers/AccountsApi.php:43-66 | an unknown business gives 500 `Error occured!` and changes nothing; otherwise the sale effect for the owner and 200 `Order has been created successfully`, even when the creation returned an error |

## Findings

| source | as written | input that shows it | evidently intended | confidence | as-written member | corrected member |
|---|---|---|---|---|---|---|
| app/Http/Controllers/AccountsApi.php:102 | `$this->productUtil` is never assigned (the constructor at lines 38-41 sets only `transactionUtil`). Reading the undeclared property at the first stock-tracked line raises an "Undefined property" warning, which the framework's error handler turns into an `ErrorException`. That aborts the loop; the `catch` at line 60 answers 500 `Error occured!`, and neither transaction (lines 55 and 88) is committed. Without that error handler, the call on null would raise an `Error` that no `catch` handles. | an order whose line maps to a product with `enable_stock` set (`Stock.AsWrittenStockLoopFails`) | decrease that product's stock row at the sale location by the line quantity | high; not executed | `Stock.StockLoopAsWritten` | `Stock.DecreaseStock` |

## Left out

- JSON decoding of the payload, the `Request` object, and JSON encoding of `order_addresses`. The order is an already-decoded record, a missing field is "", and `order_addresses` is kept as a record.
- Floating-point division: prices are `real`, without rounding.
- `LineMapping.MapOrderLines`, `AccountsApi.FormatOrderToSale`, `AccountsApi.CreateNewSaleFromOrder` and `AccountsApi.OrderCreated` require positive quantities on the lines the mapping loop divides by: every line when all of them resolve, otherwise the lines up to and including the first failing one. `AccountsApi.OrderCreated` requires this only when the business exists. The source divides by the quantity before the product check and never guards against 0.
- The utility and ORM internals are not part of this model: `createSellTransaction`, `createOrUpdateSellLines`, `createOrUpdatePaymentLines`, `setAndGetReferenceCount`, `generateReferenceNumber`, `decreaseProductQuantity` and the `OnlyCustomers` scope. Each is stated as the table change it makes. The scope is taken as "type customer or both". A stock-tracked line whose (variation, location) row does not exist creates that row at 0 and then decreases it.
- `generateReferenceNumber`: the contact stores the reference count the code is generated from, not the formatted code.
- `mapPurchaseSell` is an oracle parameter. `Some(msg)` means it throws `PurchaseSellMismatch` with that message, whatever the stock and business data.
- Nested transactions: only the savepoint of line 88 is modelled. The outer transaction of `orderCreated` (lines 55 and 58) always commits in the model.
- Exceptions other than an unknown business are not modelled as responses: database failures, and the exception of the finding above, which would turn every order with a stock-tracked line into a 500 with nothing committed. The model uses the intended decrease instead. `Business::findOrFail`'s exception text is a `Fault` value.
- The card, cheque and bank fields of the payment, which are always "", are not represented.
- The prior sell's `sell_lines` (lines 153-156) are read but never used, so `PriorSell` carries only its payment line ids.
- The `exit` statements after `return` (lines 179 and 205) are unreachable.
- `createContact` and `getOrdersByPhone` are routed in `routes/api.php` but are not in the controller, so they are not part of this model.
