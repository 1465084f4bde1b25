/** The sale-creation request that `formatOrderToSale` assembles, and the records it becomes. */
module Sales {
  import opened Wrappers

  /** One entry of the request's `products`: an order line mapped to an internal product. */
  datatype ProductLine = ProductLine(
    productId: int,
    unitPrice: real,
    unitPriceIncTax: real,
    variationId: int,
    quantity: nat,
    enableStock: bool,
    itemTax: real,
    taxId: Option<int>,
    lineItemId: int)

  /**
   * One entry of the request's `payment`. The card, cheque and bank fields, which the
   * controller always sets to the empty string, are not represented.
   */
  datatype Payment = Payment(
    amount: real,
    paymentMethod: string,
    note: string,
    paidOn: string,
    paymentId: Option<int>)

  /** One half of `order_addresses`. */
  datatype AddressSnapshot = AddressSnapshot(
    name: string,
    company: string,
    line1: string,
    line2: string,
    city: string,
    state: string,
    country: string,
    zipCode: string)

  datatype OrderAddresses = OrderAddresses(shipping: AddressSnapshot, billing: AddressSnapshot)

  datatype SaleRequest = SaleRequest(
    businessId: int,
    locationId: int,
    contactId: nat,
    discountType: string,
    discountAmount: real,
    shippingCharges: real,
    finalTotal: real,
    createdBy: int,
    status: string,
    isQuotation: int,
    subStatus: Option<string>,
    paymentStatus: string,
    additionalNotes: string,
    transactionDate: string,
    customerGroupId: Option<int>,
    taxRateId: Option<int>,
    saleNote: Option<string>,
    commissionAgent: Option<int>,
    invoiceNo: string,
    orderAddresses: OrderAddresses,
    shippingDetails: string,
    shippingStatus: string,
    shippingAddress: string,
    products: seq<ProductLine>,
    payment: seq<Payment>)

  /** A stored sell transaction with its sell lines and payment lines. */
  datatype Sale = Sale(
    id: nat,
    businessId: int,
    request: SaleRequest,
    totalBeforeTax: real,
    tax: real,
    createdBy: int,
    paymentStatus: string,
    sellLines: seq<ProductLine>,
    payments: seq<Payment>)

  /** The error arrays `createNewSaleFromOrder` returns instead of `true`. */
  datatype SaleError =
    | ProductNotFound(orderNumber: string, product: string)
    | InsufficientQuantity(orderNumber: string, msg: string)

  function ErrorType(e: SaleError): string {
    match e
    case ProductNotFound(_, _) => "order_product_not_found"
    case InsufficientQuantity(_, _) => "order_insuficient_product_qty"
  }

  /** `true`, or one of the error arrays. */
  datatype CreateResult = Created | Failed(error: SaleError)
}
