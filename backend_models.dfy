/**
 * The rows of the backend tables that the handlers read and write
 * (business-platform-api/src/models/{merchant,supplier,shipping}.py), with
 * the status enumerations of those tables. Numeric columns are `real`;
 * timestamps are opaque integers handed in by the caller.
 *
 * Where a handler stores whatever status string the request carries, the
 * column is a `string`; the enumerations then name the values the schema
 * lists, through `Code` functions.
 */
module BackendModels {
  import opened Common

  /** A date the request carries as text. `NoDate` is a missing key or an
    * empty value, `ParsedDate` text that `strptime` (or `fromisoformat`)
    * accepts, as a day number, and `BadDate` text it rejects: the
    * `ValueError` is raised inside the handler. */
  datatype DateField = NoDate | ParsedDate(day: int) | BadDate

  /** The column a date field fills: the parsed day, or null. */
  function DateColumn(d: DateField): Option<int> {
    if d.ParsedDate? then Some(d.day) else None
  }

  // ----- merchant.py -----

  /** `PurchaseOrder.status`. */
  datatype OrderStatus = OrderPending | Confirmed | Processing | Shipped | Delivered | Cancelled

  /** `PurchaseOrder.payment_status`. */
  datatype PaymentStatus = PaymentPending | Partial | Paid | Overdue

  /** `Payment.status`; a new payment row defaults to `pending`. */
  datatype PaymentState = Pending | Completed | Failed | Refunded

  datatype PurchaseOrder = PurchaseOrder(
    id: int, merchantId: int, supplierId: int, quotationId: Option<int>,
    totalAmount: real, currency: string, paymentMethod: string,
    deliveryDateRequested: Option<int>, status: OrderStatus, paymentStatus: PaymentStatus)

  datatype PurchaseOrderItem = PurchaseOrderItem(
    orderId: int, productId: Option<int>, productName: string, description: Option<string>,
    quantity: int, unitPrice: real, totalPrice: real)

  datatype Payment = Payment(orderId: int, amount: real, payMethod: string, status: PaymentState)

  datatype Favorite = Favorite(merchantId: int, supplierId: int, notes: Option<string>)

  // ----- supplier.py -----

  /** The `Quotation.status` values of the schema; the default is `draft`. */
  datatype QuotationStatus = Draft | Sent | Accepted | Rejected | Expired

  function QuotationCode(s: QuotationStatus): string {
    match s
    case Draft => "draft"
    case Sent => "sent"
    case Accepted => "accepted"
    case Rejected => "rejected"
    case Expired => "expired"
  }

  /** `QuotationItem.quantity` is an integer column. */
  datatype QuotationItem = QuotationItem(
    productId: Option<int>, productName: string, description: Option<string>,
    quantity: int, unitPrice: real, totalPrice: real)

  datatype Quotation = Quotation(
    id: int, supplierId: int, merchantId: Option<int>, title: string,
    totalAmount: real, currency: string, validUntil: Option<int>, status: string, items: seq<QuotationItem>,
    updatedAt: int)

  datatype Product = Product(
    id: int, supplierId: int, name: string, description: Option<string>, category: Option<string>,
    price: real, stock: int, minOrder: int, unit: string, images: seq<string>,
    isActive: bool, updatedAt: int)

  /** A supplier-side `Order` row; its status is whatever the last update stored. */
  datatype SupplierOrder = SupplierOrder(id: int, supplierId: int, status: string, totalAmount: real, updatedAt: int)

  // ----- shipping.py -----

  /** `ShippingShipment.status`. */
  datatype ShipmentStatus =
    ShipmentPending | ShipmentConfirmed | PickedUp | InTransit | OutForDelivery
    | ShipmentDelivered | ShipmentCancelled | Returned

  function ShipmentCode(s: ShipmentStatus): string {
    match s
    case ShipmentPending => "pending"
    case ShipmentConfirmed => "confirmed"
    case PickedUp => "picked_up"
    case InTransit => "in_transit"
    case OutForDelivery => "out_for_delivery"
    case ShipmentDelivered => "delivered"
    case ShipmentCancelled => "cancelled"
    case Returned => "returned"
  }

  /** `ShippingQuote.status`. */
  datatype QuoteStatus = QuotePending | QuoteSent | QuoteAccepted | QuoteRejected | QuoteExpired

  function QuoteCode(s: QuoteStatus): string {
    match s
    case QuotePending => "pending"
    case QuoteSent => "sent"
    case QuoteAccepted => "accepted"
    case QuoteRejected => "rejected"
    case QuoteExpired => "expired"
  }

  /** Distinct shipment statuses are stored as distinct strings, so a
    * handler that compares the stored string with a code compares the
    * statuses. */
  lemma ShipmentCodesDistinct(a: ShipmentStatus, b: ShipmentStatus)
    ensures ShipmentCode(a) == ShipmentCode(b) <==> a == b
  {
  }

  /** The same for the quotation statuses. */
  lemma QuotationCodesDistinct(a: QuotationStatus, b: QuotationStatus)
    ensures QuotationCode(a) == QuotationCode(b) <==> a == b
  {
  }

  datatype Shipment = Shipment(
    id: int, trackingNumber: string, companyId: int, merchantId: int,
    status: string, confirmedAt: Option<int>, pickedUpAt: Option<int>, deliveredAt: Option<int>,
    updatedAt: Option<int>, pickupDate: int, deliveryDate: Option<int>, quotedPrice: real)

  datatype TrackingEvent = TrackingEvent(
    shipmentId: int, status: string, location: Option<string>, description: string,
    timestamp: int, createdBy: string)

  datatype ShippingQuote = ShippingQuote(
    id: int, status: string, sentAt: Option<int>, respondedAt: Option<int>, notes: Option<string>)
}
