/** The discount adjuster: which discounts apply to an order and the
    adjustments they produce.

    The first half states the meaning of each stage as functions of the
    inputs; the class DiscountAdjuster then does the work step by step, as
    the adjuster does, and each of its methods is proved to compute the
    function that specifies it. The plugin services, the clock and the
    currency rounding are inputs (Models.Services and `now`). */
module Adjusters {
  import opened Wrappers
  import opened PhpStrings
  import opened Models

  /** The type of every adjustment this adjuster creates. */
  const AdjustmentType: string := "discount"

  /** The description of an adjustment that removes a line's shipping cost. */
  const RemoveShippingCost: string := "Remove Shipping Cost"

  // ---------------------------------------------------------------------
  // Candidate selection

  /** A discount is considered for an order when it has no coupon, or when
      the order has a coupon equal to the discount's, ignoring case. */
  function IsCandidate(couponCode: string, d: Discount): (b: bool)
    ensures d.code == "" ==> b
    ensures b && d.code != "" ==> Truthy(couponCode) && |couponCode| == |d.code|
    ensures !Truthy(couponCode) ==> (b <==> d.code == "")
  {
    d.code == "" || (Truthy(couponCode) && EqualsIgnoreCase(couponCode, d.code))
  }

  /** The candidates of a catalogue, in catalogue order. */
  function Candidates(couponCode: string, catalogue: seq<Discount>): (r: seq<Discount>)
    ensures |r| <= |catalogue|
    ensures (forall i :: 0 <= i < |catalogue| ==> !IsCandidate(couponCode, catalogue[i])) ==> r == []
  {
    if catalogue == [] then []
    else
      var d := catalogue[|catalogue| - 1];
      Candidates(couponCode, catalogue[..|catalogue| - 1]) + (if IsCandidate(couponCode, d) then [d] else [])
  }

  // ---------------------------------------------------------------------
  // Eligibility

  /** The number of previous orders whose coupon equals `code`, ignoring case. */
  function UsedCount(previousOrders: seq<Order>, code: string): (n: nat)
    ensures n <= |previousOrders|
  {
    if previousOrders == [] then 0
    else
      UsedCount(previousOrders[..|previousOrders| - 1], code)
      + (if EqualsIgnoreCase(previousOrders[|previousOrders| - 1].couponCode, code) then 1 else 0)
  }

  /** The per-email usage limit rejects the discount. */
  function PerEmailLimitReached(svc: Services, o: Order, d: Discount): (b: bool)
    ensures b ==> d.perEmailLimit <= |svc.getOrdersByEmail(o.email)|
    ensures !Truthy(o.email) || d.perEmailLimit == 0 ==> !b
    ensures d.perEmailLimit < 0 && EqualsIgnoreCase(o.couponCode, d.code) && Truthy(o.email) ==> b
  {
    && EqualsIgnoreCase(o.couponCode, d.code)
    && Truthy(o.email)
    && d.perEmailLimit != 0
    && UsedCount(svc.getOrdersByEmail(o.email), d.code) >= d.perEmailLimit
  }

  /** `now` lies outside the discount's date window; both bounds are inclusive. */
  function OutsideWindow(d: Discount, now: int): (b: bool)
    ensures (d.dateFrom.None? || d.dateFrom == Some(now)) && (d.dateTo.None? || d.dateTo == Some(now)) ==> !b
    ensures d.dateFrom.Some? && d.dateTo.Some? && d.dateFrom.value > d.dateTo.value ==> b
  {
    (d.dateFrom.Some? && d.dateFrom.value > now) || (d.dateTo.Some? && d.dateTo.value < now)
  }

  /** The order's user belongs to one of the discount's user groups. */
  function InUserGroups(svc: Services, o: Order, d: Discount): (b: bool)
    ensures o.user.None? || d.userGroupIds == {} ==> !b
  {
    o.user.Some? && svc.getUserGroupIdsForUser(o.user.value) * d.userGroupIds != {}
  }

  /** A line item counts towards the discount. */
  function ItemCounts(svc: Services, o: Order, d: Discount, item: LineItem): (b: bool)
    ensures b ==> svc.matchLineItem(item, d)
    ensures !d.allGroups && o.user.None? ==> !b
    ensures d.allGroups ==> (b <==> svc.matchLineItem(item, d))
  {
    svc.matchLineItem(item, d) && (d.allGroups || InUserGroups(svc, o, d))
  }

  /** The running totals over the line items that count. */
  datatype Tally = Tally(qty: int, total: int, lineIds: seq<int>)

  /** The quantities, subtotals and ids of the counting items, summed and
      listed in line order. */
  function MatchingTally(svc: Services, o: Order, d: Discount, items: seq<LineItem>): (t: Tally)
    ensures |t.lineIds| <= |items|
    ensures t.lineIds == [] ==> t.qty == 0 && t.total == 0
  {
    if items == [] then Tally(0, 0, [])
    else
      var t := MatchingTally(svc, o, d, items[..|items| - 1]);
      var item := items[|items| - 1];
      if ItemCounts(svc, o, d, item) then Tally(t.qty + item.qty, t.total + item.subtotal, t.lineIds + [item.id])
      else t
  }

  /** The quantity and amount thresholds; the lower bounds are inclusive. */
  function PassesThresholds(d: Discount, t: Tally): (b: bool)
    ensures t.qty == 0 ==> !b
    ensures b ==> t.qty >= d.purchaseQty && t.total >= d.purchaseTotal
    ensures b && d.maxPurchaseQty > 0 ==> d.purchaseQty <= t.qty <= d.maxPurchaseQty
    ensures d.maxPurchaseQty > 0 && d.purchaseQty > d.maxPurchaseQty ==> !b
    ensures (&& t.qty != 0 && t.qty == d.purchaseQty && t.total == d.purchaseTotal
             && (d.maxPurchaseQty <= 0 || t.qty <= d.maxPurchaseQty)) ==> b
  {
    && t.qty != 0
    && !(d.maxPurchaseQty > 0 && t.qty > d.maxPurchaseQty)
    && t.qty >= d.purchaseQty
    && t.total >= d.purchaseTotal
  }

  /** The discount survives every check of the fail-closed pipeline. */
  function Eligible(svc: Services, o: Order, d: Discount, now: int): (b: bool)
    ensures b ==> MatchingTally(svc, o, d, o.lineItems).lineIds != []
    ensures d.dateFrom.Some? && d.dateTo.Some? && d.dateFrom.value > d.dateTo.value ==> !b
    ensures !Truthy(o.email) || d.perEmailLimit == 0 ==> (b <==> !OutsideWindow(d, now) && PassesThresholds(d, MatchingTally(svc, o, d, o.lineItems)))
  {
    && !PerEmailLimitReached(svc, o, d)
    && !OutsideWindow(d, now)
    && PassesThresholds(d, MatchingTally(svc, o, d, o.lineItems))
  }

  // ---------------------------------------------------------------------
  // Adjustments

  /** The adjustment every other one starts from: the discount's name and
      description on an order-level adjustment of the order. */
  function CreateOrderAdjustment(o: Order, d: Discount): (a: OrderAdjustment)
    ensures a.adjustmentType == AdjustmentType && a.orderId == o.id
    ensures a.name == d.name && a.description == d.description && a.sourceSnapshot == d
  {
    OrderAdjustment(AdjustmentType, d.name, d.description, o.id, None, 0, d)
  }

  /** The per-item and percentage discount of one line before the clamp. */
  function LineItemDiscount(round: real -> int, d: Discount, item: LineItem): (r: int)
    ensures d.percentageOffSubject == OriginalSalePrice || item.discountTotal == 0 ==>
              r == round((d.perItemDiscount * item.qty) as real)
                   + round((d.percentDiscount * item.subtotal) as real / PercentScale as real)
  {
    var existingLineItemPrice := item.subtotal + item.discountTotal;
    var amountPerItem := round((d.perItemDiscount * item.qty) as real);
    var amountPercentage :=
      if d.percentageOffSubject == OriginalSalePrice then round((d.percentDiscount * item.subtotal) as real / PercentScale as real)
      else round((d.percentDiscount * existingLineItemPrice) as real / PercentScale as real);
    amountPerItem + amountPercentage
  }

  /** The amount of a line's discount adjustment, with the clamp exactly as
      the adjuster computes it. */
  function LineItemAmount(round: real -> int, d: Discount, item: LineItem): (r: int)
    ensures var lineItemDiscount := LineItemDiscount(round, d, item);
            && (r != lineItemDiscount ==> item.subtotal + item.discountTotal + lineItemDiscount < 0)
            && (item.subtotal + item.discountTotal + lineItemDiscount >= 0 ==>
                  r == lineItemDiscount && item.subtotal + item.discountTotal + r >= 0)
            && (item.subtotal + item.discountTotal + lineItemDiscount < 0 && item.subtotal >= 0 && item.discountTotal <= 0 ==>
                  r <= lineItemDiscount && item.subtotal + item.discountTotal + r < -item.subtotal)
  {
    var lineItemDiscount := LineItemDiscount(round, d, item);
    if -(lineItemDiscount + item.discountTotal) > item.subtotal then
      (lineItemDiscount + item.discountTotal) - item.subtotal
    else
      lineItemDiscount
  }

  /** One adjustment per line whose id is among `ids` and whose amount is
      not zero, in line order. */
  function LineItemAdjustments(round: real -> int, o: Order, d: Discount, items: seq<LineItem>, ids: seq<int>)
    : (r: seq<OrderAdjustment>)
    ensures |r| <= |items|
    ensures ids == [] ==> r == []
  {
    if items == [] then []
    else
      var item := items[|items| - 1];
      var amount := LineItemAmount(round, d, item);
      LineItemAdjustments(round, o, d, items[..|items| - 1], ids)
      + (if item.id in ids && amount != 0
         then [CreateOrderAdjustment(o, d).(lineItemId := Some(item.id), amount := amount)]
         else [])
  }

  /** With free shipping, one adjustment per line whose id is among `ids`
      and which carries shipping, taking that shipping off; in line order. */
  function ShippingAdjustments(o: Order, d: Discount, items: seq<LineItem>, ids: seq<int>): (r: seq<OrderAdjustment>)
    ensures |r| <= |items|
    ensures !d.freeShipping || ids == [] ==> r == []
  {
    if items == [] then []
    else
      var item := items[|items| - 1];
      ShippingAdjustments(o, d, items[..|items| - 1], ids)
      + (if item.id in ids && d.freeShipping && item.shippingTotal > 0
         then [CreateOrderAdjustment(o, d).(lineItemId := Some(item.id), amount := -item.shippingTotal,
                                            description := RemoveShippingCost)]
         else [])
  }

  /** The order-level adjustment of a non-zero base discount. */
  function BaseAdjustment(o: Order, d: Discount): (r: seq<OrderAdjustment>)
    ensures |r| <= 1
    ensures r != [] <==> d.baseDiscount.Some? && d.baseDiscount.value != 0
    ensures forall a :: a in r ==> && a.adjustmentType == AdjustmentType && a.orderId == o.id
                                   && a.lineItemId.None? && a.amount == d.baseDiscount.value
  {
    if d.baseDiscount.Some? && d.baseDiscount.value != 0 then
      [CreateOrderAdjustment(o, d).(lineItemId := None, amount := d.baseDiscount.value)]
    else []
  }

  /** The adjustments of one discount: None (the adjuster's `false`) when a
      check rejects it or when it yields nothing. */
  function RuleAdjustments(svc: Services, o: Order, d: Discount, now: int): (r: Option<seq<OrderAdjustment>>)
    ensures r.Some? ==> r.value != []
  {
    if !Eligible(svc, o, d, now) then None
    else
      var ids := MatchingTally(svc, o, d, o.lineItems).lineIds;
      var adjustments :=
        LineItemAdjustments(svc.round, o, d, o.lineItems, ids)
        + ShippingAdjustments(o, d, o.lineItems, ids)
        + BaseAdjustment(o, d);
      if adjustments == [] then None else Some(adjustments)
  }

  /** The adjustments of a list of candidates, in order, stopping after the
      first discount that has `stopProcessing` set and yielded adjustments. */
  function Accumulate(svc: Services, o: Order, candidates: seq<Discount>, now: int): (r: seq<OrderAdjustment>)
    ensures candidates == [] ==> r == []
  {
    if candidates == [] then []
    else
      match RuleAdjustments(svc, o, candidates[0], now)
      case None => Accumulate(svc, o, candidates[1..], now)
      case Some(adjustments) =>
        if candidates[0].stopProcessing then adjustments
        else adjustments + Accumulate(svc, o, candidates[1..], now)
  }

  /** The index of the last candidate evaluated when evaluation reaches
      candidate `from`: the first from there on that has `stopProcessing`
      set and yields adjustments, or else the last. */
  function LastEvaluated(svc: Services, o: Order, candidates: seq<Discount>, from: nat, now: int): (k: nat)
    requires from < |candidates|
    ensures from <= k < |candidates|
    decreases |candidates| - from
  {
    var d := candidates[from];
    if from == |candidates| - 1 || (d.stopProcessing && RuleAdjustments(svc, o, d, now).Some?) then from
    else LastEvaluated(svc, o, candidates, from + 1, now)
  }

  /** What the adjuster returns for an order and a catalogue. */
  function Evaluate(svc: Services, o: Order, catalogue: seq<Discount>, now: int): (r: seq<OrderAdjustment>)
    ensures catalogue == [] ==> r == []
    ensures !Truthy(o.couponCode) && (forall i :: 0 <= i < |catalogue| ==> catalogue[i].code != "") ==> r == []
  {
    Accumulate(svc, o, Candidates(o.couponCode, catalogue), now)
  }

  // ---------------------------------------------------------------------
  // The adjuster

  /** The adjuster object. It remembers the order being adjusted and the
      discount being evaluated, as the adjuster's private fields do. */
  class DiscountAdjuster {
    const services: Services
    var order: Option<Order>
    var discount: Option<Discount>

    constructor (services: Services)
      ensures this.services == services && order == None && discount == None
    {
      this.services := services;
      order := None;
      discount := None;
    }

    /** Adjusts an order against the catalogue at instant `now`. The
        current discount is left at the last candidate evaluated: the last
        candidate, or the one whose `stopProcessing` ended the evaluation. */
    method Adjust(o: Order, catalogue: seq<Discount>, now: int) returns (adjustments: seq<OrderAdjustment>)
      modifies this
      ensures order == Some(o)
      ensures Candidates(o.couponCode, catalogue) == [] ==> discount == old(discount)
      ensures var candidates := Candidates(o.couponCode, catalogue);
              candidates != [] ==>
                && discount == Some(candidates[LastEvaluated(services, o, candidates, 0, now)])
                && discount.value in catalogue
      ensures adjustments == Evaluate(services, o, catalogue, now)
      ensures catalogue == [] ==> adjustments == []
    {
      order := Some(o);
      var availableDiscounts := SelectCandidates(o.couponCode, catalogue);
      adjustments := EvaluateCandidates(availableDiscounts, now);
      if availableDiscounts != [] {
        CandidateInCatalogue(o.couponCode, catalogue, LastEvaluated(services, o, availableDiscounts, 0, now));
      }
    }

    /** Evaluates the candidates of the current order in turn, collecting
        their adjustments, and stops after a discount with `stopProcessing`
        that yielded adjustments. The current discount is left at the last
        candidate evaluated. */
    method EvaluateCandidates(availableDiscounts: seq<Discount>, now: int) returns (adjustments: seq<OrderAdjustment>)
      requires order.Some?
      modifies this`discount
      ensures availableDiscounts == [] ==> discount == old(discount)
      ensures availableDiscounts != [] ==>
                discount == Some(availableDiscounts[LastEvaluated(services, order.value, availableDiscounts, 0, now)])
      ensures adjustments == Accumulate(services, order.value, availableDiscounts, now)
    {
      var o := order.value;
      adjustments := [];
      var i := 0;
      while i < |availableDiscounts|
        invariant 0 <= i <= |availableDiscounts|
        invariant i == 0 ==> discount == old(discount)
        invariant 0 < i ==> discount == Some(availableDiscounts[i - 1])
        invariant i < |availableDiscounts| ==>
                    LastEvaluated(services, o, availableDiscounts, i, now) == LastEvaluated(services, o, availableDiscounts, 0, now)
        invariant i == |availableDiscounts| && 0 < i ==> LastEvaluated(services, o, availableDiscounts, 0, now) == i - 1
        invariant adjustments + Accumulate(services, o, availableDiscounts[i..], now)
                  == Accumulate(services, o, availableDiscounts, now)
      {
        var d := availableDiscounts[i];
        var newAdjustments := GetAdjustments(d, now);
        AccumulateStep(services, o, availableDiscounts, i, now);
        if newAdjustments.Some? {
          adjustments := adjustments + newAdjustments.value;
          if d.stopProcessing {
            assert LastEvaluated(services, o, availableDiscounts, 0, now) == i;
            return;
          }
        }
        i := i + 1;
      }
    }

    /** The discounts of the catalogue without a coupon or whose coupon
        the order's coupon matches, in catalogue order. */
    method SelectCandidates(couponCode: string, catalogue: seq<Discount>) returns (availableDiscounts: seq<Discount>)
      ensures availableDiscounts == Candidates(couponCode, catalogue)
    {
      availableDiscounts := [];
      for i := 0 to |catalogue|
        invariant availableDiscounts == Candidates(couponCode, catalogue[..i])
      {
        var d := catalogue[i];
        CandidatesStep(couponCode, catalogue, i);
        if d.code == "" {
          availableDiscounts := availableDiscounts + [d];
        }
        if Truthy(couponCode) && EqualsIgnoreCase(couponCode, d.code) {
          availableDiscounts := availableDiscounts + [d];
        }
      }
      assert catalogue[..|catalogue|] == catalogue;
    }

    /** The adjustments of one discount for the current order, or None. */
    method GetAdjustments(d: Discount, now: int) returns (r: Option<seq<OrderAdjustment>>)
      requires order.Some?
      modifies this`discount
      ensures discount == Some(d)
      ensures r == RuleAdjustments(services, order.value, d, now)
    {
      discount := Some(d);
      var o := order.value;

      // the per-email usage limit, when the coupon matches
      if EqualsIgnoreCase(o.couponCode, d.code) {
        if Truthy(o.email) && d.perEmailLimit != 0 {
          var previousOrders := services.getOrdersByEmail(o.email);
          var usedCount := CountUses(previousOrders, d.code);
          if usedCount >= d.perEmailLimit {
            return None;
          }
        }
      }
      assert !PerEmailLimitReached(services, o, d);

      // the date window
      var from, to := d.dateFrom, d.dateTo;
      if (from.Some? && from.value > now) || (to.Some? && to.value < now) {
        return None;
      }
      assert !OutsideWindow(d, now);

      // the matching line items
      var matchingQty, matchingTotal, matchingLineIds := MatchLineItems(o, d);

      if matchingQty == 0 {
        return None;
      }
      if d.maxPurchaseQty > 0 && matchingQty > d.maxPurchaseQty {
        return None;
      }
      if matchingQty < d.purchaseQty {
        return None;
      }
      if matchingTotal < d.purchaseTotal {
        return None;
      }
      assert PassesThresholds(d, MatchingTally(services, o, d, o.lineItems));

      ghost var lines := LineItemAdjustments(services.round, o, d, o.lineItems, matchingLineIds);
      ghost var removals := ShippingAdjustments(o, d, o.lineItems, matchingLineIds);
      var adjustments: seq<OrderAdjustment> := [];
      adjustments := AppendLineItemDiscounts(o, d, matchingLineIds, adjustments);
      assert adjustments == lines;
      adjustments := AppendShippingRemovals(o, d, matchingLineIds, adjustments);
      assert adjustments == lines + removals;

      // the base discount
      if d.baseDiscount.Some? && d.baseDiscount.value != 0 {
        var baseDiscountAdjustment := CreateOrderAdjustment(o, d);
        baseDiscountAdjustment := baseDiscountAdjustment.(lineItemId := None, amount := d.baseDiscount.value);
        assert [baseDiscountAdjustment] == BaseAdjustment(o, d);
        if baseDiscountAdjustment.amount != 0 {
          adjustments := adjustments + [baseDiscountAdjustment];
        }
      } else {
        assert BaseAdjustment(o, d) == [];
      }
      assert adjustments == lines + removals + BaseAdjustment(o, d);

      assert Eligible(services, o, d, now);
      if |adjustments| > 0 {
        return Some(adjustments);
      }
      return None;
    }

    /** The number of `previousOrders` that used the coupon `code`. */
    method CountUses(previousOrders: seq<Order>, code: string) returns (usedCount: nat)
      ensures usedCount == UsedCount(previousOrders, code)
    {
      usedCount := 0;
      for k := 0 to |previousOrders|
        invariant usedCount == UsedCount(previousOrders[..k], code)
      {
        assert previousOrders[..k + 1][..k] == previousOrders[..k];
        if EqualsIgnoreCase(previousOrders[k].couponCode, code) {
          usedCount := usedCount + 1;
        }
      }
      assert previousOrders[..|previousOrders|] == previousOrders;
    }

    /** The quantity, subtotal and ids of the order's lines that the
        matcher accepts and whose user passes the discount's group gate. */
    method MatchLineItems(o: Order, d: Discount) returns (matchingQty: int, matchingTotal: int, matchingLineIds: seq<int>)
      ensures Tally(matchingQty, matchingTotal, matchingLineIds) == MatchingTally(services, o, d, o.lineItems)
    {
      matchingQty, matchingTotal, matchingLineIds := 0, 0, [];
      for k := 0 to |o.lineItems|
        invariant Tally(matchingQty, matchingTotal, matchingLineIds) == MatchingTally(services, o, d, o.lineItems[..k])
      {
        var item := o.lineItems[k];
        MatchingTallyStep(services, o, d, o.lineItems, k);
        if services.matchLineItem(item, d) {
          if !d.allGroups {
            var user := o.user;
            if user.Some? && services.getUserGroupIdsForUser(user.value) * d.userGroupIds != {} {
              matchingLineIds := matchingLineIds + [item.id];
              matchingQty := matchingQty + item.qty;
              matchingTotal := matchingTotal + item.subtotal;
            }
          } else {
            matchingLineIds := matchingLineIds + [item.id];
            matchingQty := matchingQty + item.qty;
            matchingTotal := matchingTotal + item.subtotal;
          }
        }
      }
      assert o.lineItems[..|o.lineItems|] == o.lineItems;
    }

    /** Appends to `adjustments` one discount adjustment per line whose id
        is among `matchingLineIds`, unless its amount is zero. */
    method AppendLineItemDiscounts(o: Order, d: Discount, matchingLineIds: seq<int>, adjustments: seq<OrderAdjustment>)
      returns (result: seq<OrderAdjustment>)
      ensures result == adjustments + LineItemAdjustments(services.round, o, d, o.lineItems, matchingLineIds)
    {
      result := adjustments;
      for k := 0 to |o.lineItems|
        invariant result == adjustments + LineItemAdjustments(services.round, o, d, o.lineItems[..k], matchingLineIds)
      {
        var item := o.lineItems[k];
        LineItemAdjustmentsStep(services.round, o, d, o.lineItems, matchingLineIds, k);
        if item.id in matchingLineIds {
          var adjustment := LineItemAdjustment(o, d, item);
          if adjustment.amount != 0 {
            result := result + [adjustment];
          }
        }
      }
      assert o.lineItems[..|o.lineItems|] == o.lineItems;
    }

    /** The discount adjustment of one line, with the clamp as written. */
    method LineItemAdjustment(o: Order, d: Discount, item: LineItem) returns (adjustment: OrderAdjustment)
      ensures adjustment == CreateOrderAdjustment(o, d).(lineItemId := Some(item.id),
                                                         amount := LineItemAmount(services.round, d, item))
    {
      adjustment := CreateOrderAdjustment(o, d);
      adjustment := adjustment.(lineItemId := Some(item.id));
      var existingLineItemPrice := item.subtotal + item.discountTotal;
      var amountPerItem := services.round((d.perItemDiscount * item.qty) as real);
      var amountPercentage := services.round((d.percentDiscount * existingLineItemPrice) as real / PercentScale as real);
      if d.percentageOffSubject == OriginalSalePrice {
        amountPercentage := services.round((d.percentDiscount * item.subtotal) as real / PercentScale as real);
      }
      var lineItemDiscount := amountPerItem + amountPercentage;
      var diff: Option<int> := None;
      if -(lineItemDiscount + item.discountTotal) > item.subtotal {
        diff := Some((lineItemDiscount + item.discountTotal) - item.subtotal);
      }
      if diff.Some? {
        adjustment := adjustment.(amount := diff.value);
      } else {
        adjustment := adjustment.(amount := lineItemDiscount);
      }
      assert lineItemDiscount == LineItemDiscount(services.round, d, item);
    }

    /** With free shipping, appends to `adjustments` one adjustment per line
        whose id is among `matchingLineIds` and which carries shipping,
        taking that shipping off. */
    method AppendShippingRemovals(o: Order, d: Discount, matchingLineIds: seq<int>, adjustments: seq<OrderAdjustment>)
      returns (result: seq<OrderAdjustment>)
      ensures result == adjustments + ShippingAdjustments(o, d, o.lineItems, matchingLineIds)
    {
      result := adjustments;
      for k := 0 to |o.lineItems|
        invariant result == adjustments + ShippingAdjustments(o, d, o.lineItems[..k], matchingLineIds)
      {
        var item := o.lineItems[k];
        ShippingAdjustmentsStep(o, d, o.lineItems, matchingLineIds, k);
        if item.id in matchingLineIds && d.freeShipping {
          var adjustment := CreateOrderAdjustment(o, d);
          var shippingCost := item.shippingTotal;
          if shippingCost > 0 {
            adjustment := adjustment.(lineItemId := Some(item.id), amount := shippingCost * -1,
                                      description := RemoveShippingCost);
            result := result + [adjustment];
          }
        }
      }
      assert o.lineItems[..|o.lineItems|] == o.lineItems;
    }
  }

  /** Selecting from one more discount of the catalogue appends it exactly
      when it is a candidate. */
  lemma CandidatesStep(couponCode: string, catalogue: seq<Discount>, i: nat)
    requires i < |catalogue|
    ensures Candidates(couponCode, catalogue[..i + 1])
            == Candidates(couponCode, catalogue[..i]) + (if IsCandidate(couponCode, catalogue[i]) then [catalogue[i]] else [])
  {
    assert catalogue[..i + 1][..i] == catalogue[..i];
  }

  /** One step of the evaluation of the candidates from the i-th on. */
  lemma AccumulateStep(svc: Services, o: Order, candidates: seq<Discount>, i: nat, now: int)
    requires i < |candidates|
    ensures var r := RuleAdjustments(svc, o, candidates[i], now);
            Accumulate(svc, o, candidates[i..], now)
            == if r.None? then Accumulate(svc, o, candidates[i + 1..], now)
               else if candidates[i].stopProcessing then r.value
               else r.value + Accumulate(svc, o, candidates[i + 1..], now)
  {
    assert candidates[i..][1..] == candidates[i + 1..];
  }

  /** One more line adds to the tally when it counts. */
  lemma MatchingTallyStep(svc: Services, o: Order, d: Discount, items: seq<LineItem>, k: nat)
    requires k < |items|
    ensures var t, item := MatchingTally(svc, o, d, items[..k]), items[k];
            MatchingTally(svc, o, d, items[..k + 1])
            == if ItemCounts(svc, o, d, item) then Tally(t.qty + item.qty, t.total + item.subtotal, t.lineIds + [item.id]) else t
  {
    assert items[..k + 1][..k] == items[..k];
  }

  /** One more line adds its discount adjustment, if any, at the end. */
  lemma LineItemAdjustmentsStep(round: real -> int, o: Order, d: Discount, items: seq<LineItem>, ids: seq<int>, k: nat)
    requires k < |items|
    ensures var amount := LineItemAmount(round, d, items[k]);
            LineItemAdjustments(round, o, d, items[..k + 1], ids)
            == LineItemAdjustments(round, o, d, items[..k], ids)
               + (if items[k].id in ids && amount != 0
                  then [CreateOrderAdjustment(o, d).(lineItemId := Some(items[k].id), amount := amount)]
                  else [])
  {
    assert items[..k + 1][..k] == items[..k];
  }

  /** One more line adds its shipping removal, if any, at the end. */
  lemma ShippingAdjustmentsStep(o: Order, d: Discount, items: seq<LineItem>, ids: seq<int>, k: nat)
    requires k < |items|
    ensures ShippingAdjustments(o, d, items[..k + 1], ids)
            == ShippingAdjustments(o, d, items[..k], ids)
               + (if items[k].id in ids && d.freeShipping && items[k].shippingTotal > 0
                  then [CreateOrderAdjustment(o, d).(lineItemId := Some(items[k].id), amount := -items[k].shippingTotal,
                                                     description := RemoveShippingCost)]
                  else [])
  {
    assert items[..k + 1][..k] == items[..k];
  }

  /** Every candidate comes from the catalogue. */
  lemma {:induction false} CandidateInCatalogue(couponCode: string, catalogue: seq<Discount>, i: nat)
    requires i < |Candidates(couponCode, catalogue)|
    ensures Candidates(couponCode, catalogue)[i] in catalogue
  {
    var c := Candidates(couponCode, catalogue);
    var init := catalogue[..|catalogue| - 1];
    if i < |Candidates(couponCode, init)| {
      CandidateInCatalogue(couponCode, init, i);
      assert c[i] == Candidates(couponCode, init)[i];
    }
  }
}
