/**
 * The external store order as the webhook receives it, already decoded from JSON.
 * A field missing from the payload is the empty string.
 */
module Orders {
  import opened Wrappers

  /** One entry of `line_items`. */
  datatype OrderLine = OrderLine(
    id: int,
    name: string,
    sku: string,
    quantity: nat,
    total: real,
    totalTax: Option<real>)

  /** The `billing` and `shipping` objects (shipping carries no email or phone). */
  datatype Address = Address(
    firstName: string,
    lastName: string,
    company: string,
    address1: string,
    address2: string,
    city: string,
    state: string,
    country: string,
    postcode: string,
    email: string,
    phone: string)

  /** One entry of `shipping_lines`. */
  datatype ShippingLine = ShippingLine(methodTitle: string)

  datatype Order = Order(
    number: string,
    lineItems: seq<OrderLine>,
    billing: Address,
    shipping: Address,
    shippingLines: seq<ShippingLine>,
    total: real,
    discountTotal: real,
    shippingTotal: Option<real>,
    paymentMethodTitle: string,
    dateCreated: string,
    datePaid: string)

  /**
   * An already recorded sell passed to `formatOrderToSale` when an order is re-synced;
   * of it, only the ids of its payment lines are read.
   */
  datatype PriorSell = PriorSell(paymentLineIds: seq<int>)

  /** The source divides by every line's quantity and never guards against zero. */
  predicate PositiveQuantities(lines: seq<OrderLine>) {
    forall i :: 0 <= i < |lines| ==> lines[i].quantity > 0
  }
}
