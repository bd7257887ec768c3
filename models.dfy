/** The records the discount adjuster reads and the adjustment it produces.
    Money is an integer count of the currency's minor units. A nullable
    string is "" (see PhpStrings). */
module Models {
  import opened Wrappers

  /** One line of an order, with the totals of the adjustments already on it. */
  datatype LineItem = LineItem(
    id: int,
    qty: int,
    subtotal: int,
    discountTotal: int,   // total of earlier 'discount' adjustments on the line (signed, normally negative)
    shippingTotal: int)   // total of 'shipping' adjustments on the line

  /** An order as the adjuster sees it. `user` is the customer's user id, or
      None when the order has no customer or the customer has no user. */
  datatype Order = Order(
    id: int,
    couponCode: string,
    email: string,
    user: Option<int>,
    lineItems: seq<LineItem>)

  /** What a percentage discount is taken from. */
  datatype PercentageOffSubject = OriginalSalePrice | DiscountedSalePrice

  /** The scale of `Discount.percentDiscount`: the fraction of the price
      taken off, times PercentScale (-0.1 is -1000). */
  const PercentScale: nat := 10000

  /** A discount of the catalogue. `code` is "" for a discount without a
      coupon; the dates are instants, None when the window is open on that
      side; `percentDiscount` is scaled by PercentScale. */
  datatype Discount = Discount(
    id: int,
    name: string,
    description: string,
    code: string,
    perEmailLimit: int,
    dateFrom: Option<int>,
    dateTo: Option<int>,
    allGroups: bool,
    userGroupIds: set<int>,
    purchaseQty: int,
    maxPurchaseQty: int,
    purchaseTotal: int,
    perItemDiscount: int,
    percentDiscount: int,
    percentageOffSubject: PercentageOffSubject,
    baseDiscount: Option<int>,
    freeShipping: bool,
    stopProcessing: bool)

  /** An adjustment of the order total. `lineItemId` is None for an
      order-level adjustment; `sourceSnapshot` is the copy of the discount
      it came from. */
  datatype OrderAdjustment = OrderAdjustment(
    adjustmentType: string,
    name: string,
    description: string,
    orderId: int,
    lineItemId: Option<int>,
    amount: int,
    sourceSnapshot: Discount)

  /** The plugin services the adjuster calls: the line-item matcher, the
      previous orders of an email address, the user groups of a user, and
      the currency rounding. */
  datatype Services = Services(
    matchLineItem: (LineItem, Discount) -> bool,
    getOrdersByEmail: string -> seq<Order>,
    getUserGroupIdsForUser: int -> set<int>,
    round: real -> int)
}
