/** The order document: its line items, its embedded shipping address and its status. */
module OrderModel {
  import opened Wrappers
  import opened Collections

  /** The six values the schema's `orderStatus` enumeration admits. */
  datatype OrderStatus =
    | AwaitingSellerApproval
    | WaitingForPayment
    | WaitingForDelivery
    | Delivered
    | Cancelled
    | RejectedBySeller

  /** The string stored in the document for each status. */
  function Label(s: OrderStatus): string {
    match s
    case AwaitingSellerApproval => "Awaiting Seller Approval"
    case WaitingForPayment => "Waiting for Payment"
    case WaitingForDelivery => "Waiting for Delivery"
    case Delivered => "Delivered"
    case Cancelled => "Cancelled"
    case RejectedBySeller => "Rejected by Seller"
  }

  /** The enumeration check: which status, if any, a stored string denotes. */
  function ParseStatus(t: string): (r: Option<OrderStatus>)
    ensures r.Some? ==> Label(r.value) == t
    ensures r.None? <==> forall s :: Label(s) != t
  {
    if t == "Awaiting Seller Approval" then Some(AwaitingSellerApproval)
    else if t == "Waiting for Payment" then Some(WaitingForPayment)
    else if t == "Waiting for Delivery" then Some(WaitingForDelivery)
    else if t == "Delivered" then Some(Delivered)
    else if t == "Cancelled" then Some(Cancelled)
    else if t == "Rejected by Seller" then Some(RejectedBySeller)
    else None
  }

  /** Labels are distinct, so a status and its label determine each other. */
  lemma LabelRoundTrip(s: OrderStatus)
    ensures ParseStatus(Label(s)) == Some(s)
  {
  }

  predicate IsOrderStatus(t: string) {
    ParseStatus(t).Some?
  }

  /** The two statuses whose update hands the reserved stock back. */
  predicate ReleasesStock(t: string) {
    t == "Cancelled" || t == "Rejected by Seller"
  }

  lemma ReleasesStockIff(t: string)
    ensures ReleasesStock(t) <==> ParseStatus(t) == Some(Cancelled) || ParseStatus(t) == Some(RejectedBySeller)
  {
  }

  /** One line of an order; every field but the lead image is required. */
  datatype OrderItem = OrderItem(
    productId: ObjectId,
    productSlug: string,
    productName: string,
    productLeadImage: Option<string>,
    productPrice: int,
    quantity: int,
    itemPrice: int)

  /** Embedded by value in the order, so later edits of the user's saved addresses do not reach it. */
  datatype ShippingAddress = ShippingAddress(
    fullName: string,
    address: string,
    city: string,
    department: string,
    contactPhoneNumber: string)

  /**
   * A stored order. `orderStatus` holds the stored string: the enumeration is
   * checked when a document is saved, not by findByIdAndUpdate.
   */
  datatype Order = Order(
    id: ObjectId,
    userId: ObjectId,
    storeId: ObjectId,
    storeSlug: string,
    storeName: string,
    storeImageURL: string,
    orderStatus: string,
    orderItems: seq<OrderItem>,
    shippingAddress: ShippingAddress,
    itemsPrice: int,
    shippingPrice: int,
    totalPrice: int,
    paymentMethod: string,
    paidAt: Option<int>,
    deliveredAt: Option<int>)

  /** The relation the schema's comment states for the total; nothing checks it. */
  predicate PricesAgree(o: Order) {
    o.totalPrice == o.itemsPrice + o.shippingPrice
  }

  /** The fields an order update may carry in this model. */
  datatype OrderPatch = OrderPatch(orderStatus: Option<string>, paidAt: Option<int>, deliveredAt: Option<int>)

  /** findByIdAndUpdate's `$set`: the given fields are overwritten, the rest kept. */
  function ApplyOrderPatch(o: Order, patch: OrderPatch): (r: Order)
    ensures r.orderStatus == (if patch.orderStatus.Some? then patch.orderStatus.value else o.orderStatus)
    ensures r.paidAt == (if patch.paidAt.Some? then patch.paidAt else o.paidAt)
    ensures r.deliveredAt == (if patch.deliveredAt.Some? then patch.deliveredAt else o.deliveredAt)
    ensures r == o.(orderStatus := r.orderStatus, paidAt := r.paidAt, deliveredAt := r.deliveredAt)
  {
    o.(orderStatus := if patch.orderStatus.Some? then patch.orderStatus.value else o.orderStatus,
       paidAt := if patch.paidAt.Some? then patch.paidAt else o.paidAt,
       deliveredAt := if patch.deliveredAt.Some? then patch.deliveredAt else o.deliveredAt)
  }
}
