/** What the discount adjuster guarantees, proved about the functions that
    specify it (module Adjusters): which discounts are considered, how the
    per-discount lists are combined and where evaluation stops, what each
    emitted adjustment looks like, and when a discount yields nothing. */
module DiscountProperties {
  import opened Wrappers
  import opened PhpStrings
  import opened Models
  import opened Adjusters

  // ---------------------------------------------------------------------
  // Candidate selection

  /** Selecting candidates distributes over concatenation of catalogues:
      together with the one-discount case this says candidates keep
      catalogue order. */
  lemma {:induction false} CandidatesConcat(couponCode: string, a: seq<Discount>, b: seq<Discount>)
    ensures Candidates(couponCode, a + b) == Candidates(couponCode, a) + Candidates(couponCode, b)
  {
    if b == [] {
      assert a + b == a;
    } else {
      var init := b[..|b| - 1];
      assert (a + b)[..|a + b| - 1] == a + init;
      assert (a + b)[|a + b| - 1] == b[|b| - 1];
      CandidatesConcat(couponCode, a, init);
    }
  }

  /** A discount is a candidate exactly when it is in the catalogue and has
      no coupon or the order's coupon equals its coupon, ignoring case. */
  lemma {:induction false} CandidateMembership(couponCode: string, catalogue: seq<Discount>, d: Discount)
    ensures d in Candidates(couponCode, catalogue) <==>
            d in catalogue && (d.code == "" || (Truthy(couponCode) && EqualsIgnoreCase(couponCode, d.code)))
  {
    if catalogue != [] {
      var init := catalogue[..|catalogue| - 1];
      assert catalogue == init + [catalogue[|catalogue| - 1]];
      CandidateMembership(couponCode, init, d);
    }
  }

  // ---------------------------------------------------------------------
  // Combining the discounts and stopping

  /** The list a discount contributes, empty when it yields nothing. */
  function Output(r: Option<seq<OrderAdjustment>>): (l: seq<OrderAdjustment>)
    ensures r.None? ==> l == []
  {
    if r.Some? then r.value else []
  }

  /** Every discount's list, concatenated in order, with no stopping. */
  function AllOutputs(svc: Services, o: Order, ds: seq<Discount>, now: int): (r: seq<OrderAdjustment>)
  {
    if ds == [] then [] else Output(RuleAdjustments(svc, o, ds[0], now)) + AllOutputs(svc, o, ds[1..], now)
  }

  /** The discount stops the evaluation: it has `stopProcessing` set and
      yielded adjustments. */
  predicate Stops(svc: Services, o: Order, d: Discount, now: int)
  {
    d.stopProcessing && RuleAdjustments(svc, o, d, now).Some?
  }

  /** The first candidate's adjustments, when it yields some, open the
      result. */
  lemma AccumulateStartsWithFirst(svc: Services, o: Order, ds: seq<Discount>, now: int)
    requires ds != [] && RuleAdjustments(svc, o, ds[0], now).Some?
    ensures RuleAdjustments(svc, o, ds[0], now).value <= Accumulate(svc, o, ds, now)
  {
  }

  /** The last candidate evaluated is the first that stops the evaluation,
      or the last candidate when none does. */
  lemma {:induction false} LastEvaluatedIsFirstStop(svc: Services, o: Order, ds: seq<Discount>, from: nat, now: int)
    requires from < |ds|
    ensures var k := LastEvaluated(svc, o, ds, from, now);
            && (forall i :: from <= i < k ==> !Stops(svc, o, ds[i], now))
            && (Stops(svc, o, ds[k], now) || k == |ds| - 1)
    decreases |ds| - from
  {
    var k := LastEvaluated(svc, o, ds, from, now);
    if from < k {
      LastEvaluatedIsFirstStop(svc, o, ds, from + 1, now);
    }
  }

  /** When no candidate stops the evaluation, the result is every
      candidate's list in candidate order; a rejected discount with
      `stopProcessing` set does not stop anything. */
  lemma {:induction false} AccumulateWithoutStop(svc: Services, o: Order, ds: seq<Discount>, now: int)
    requires forall i :: 0 <= i < |ds| ==> !Stops(svc, o, ds[i], now)
    ensures Accumulate(svc, o, ds, now) == AllOutputs(svc, o, ds, now)
  {
    if ds != [] {
      assert !Stops(svc, o, ds[0], now);
      AccumulateWithoutStop(svc, o, ds[1..], now);
    }
  }

  /** The evaluation ends right after the first candidate that stops it:
      the result is the lists of the candidates up to and including it. */
  lemma {:induction false} AccumulateStopsAt(svc: Services, o: Order, ds: seq<Discount>, now: int, k: nat)
    requires k < |ds| && Stops(svc, o, ds[k], now)
    requires forall i :: 0 <= i < k ==> !Stops(svc, o, ds[i], now)
    ensures Accumulate(svc, o, ds, now) == AllOutputs(svc, o, ds[..k + 1], now)
  {
    if k == 0 {
      assert ds[..1][1..] == [];
    } else {
      assert !Stops(svc, o, ds[0], now);
      AccumulateStopsAt(svc, o, ds[1..], now, k - 1);
      assert ds[..k + 1][1..] == ds[1..][..k];
    }
  }

  // ---------------------------------------------------------------------
  // The shape of emitted adjustments

  /** An adjustment made by discount `d` for order `o`: of the discount
      type, on the order, carrying the discount's name and snapshot, and
      not zero. */
  predicate Emitted(a: OrderAdjustment, o: Order, d: Discount)
  {
    && a.adjustmentType == AdjustmentType
    && a.orderId == o.id
    && a.name == d.name
    && a.sourceSnapshot == d
    && a.amount != 0
  }

  /** Each line adjustment is a non-zero discount of a line whose id is
      among `ids`, by that line's computed amount. */
  lemma {:induction false} LineItemAdjustmentsSound(round: real -> int, o: Order, d: Discount,
                                                    items: seq<LineItem>, ids: seq<int>, a: OrderAdjustment)
    requires a in LineItemAdjustments(round, o, d, items, ids)
    ensures Emitted(a, o, d) && a.description == d.description
    ensures exists item :: item in items && item.id in ids && a.lineItemId == Some(item.id)
                           && a.amount == LineItemAmount(round, d, item)
  {
    var init := items[..|items| - 1];
    var last := items[|items| - 1];
    assert last in items;
    if a in LineItemAdjustments(round, o, d, init, ids) {
      LineItemAdjustmentsSound(round, o, d, init, ids, a);
      var item :| item in init && item.id in ids && a.lineItemId == Some(item.id)
                  && a.amount == LineItemAmount(round, d, item);
      assert item in items;
    }
  }

  /** Each line whose id is among `ids` and whose computed amount is not
      zero gets its adjustment. */
  lemma {:induction false} LineItemAdjustmentsComplete(round: real -> int, o: Order, d: Discount,
                                                       items: seq<LineItem>, ids: seq<int>, k: nat)
    requires k < |items| && items[k].id in ids && LineItemAmount(round, d, items[k]) != 0
    ensures CreateOrderAdjustment(o, d).(lineItemId := Some(items[k].id), amount := LineItemAmount(round, d, items[k]))
            in LineItemAdjustments(round, o, d, items, ids)
  {
    if k < |items| - 1 {
      var init := items[..|items| - 1];
      assert init[k] == items[k];
      LineItemAdjustmentsComplete(round, o, d, init, ids, k);
    }
  }

  /** Line adjustments follow line order: those of the earlier lines come
      first. */
  lemma {:induction false} LineItemAdjustmentsConcat(round: real -> int, o: Order, d: Discount,
                                                     a: seq<LineItem>, b: seq<LineItem>, ids: seq<int>)
    ensures LineItemAdjustments(round, o, d, a + b, ids)
            == LineItemAdjustments(round, o, d, a, ids) + LineItemAdjustments(round, o, d, b, ids)
  {
    if b == [] {
      assert a + b == a;
    } else {
      var init := b[..|b| - 1];
      assert (a + b)[..|a + b| - 1] == a + init;
      assert (a + b)[|a + b| - 1] == b[|b| - 1];
      LineItemAdjustmentsConcat(round, o, d, a, init, ids);
    }
  }

  /** Shipping removals follow line order: those of the earlier lines come
      first. */
  lemma {:induction false} ShippingAdjustmentsConcat(o: Order, d: Discount, a: seq<LineItem>, b: seq<LineItem>, ids: seq<int>)
    ensures ShippingAdjustments(o, d, a + b, ids) == ShippingAdjustments(o, d, a, ids) + ShippingAdjustments(o, d, b, ids)
  {
    if b == [] {
      assert a + b == a;
    } else {
      var init := b[..|b| - 1];
      assert (a + b)[..|a + b| - 1] == a + init;
      assert (a + b)[|a + b| - 1] == b[|b| - 1];
      ShippingAdjustmentsConcat(o, d, a, init, ids);
    }
  }

  /** Each shipping adjustment takes off the whole, positive shipping total
      of a line whose id is among `ids`, and exists only with free shipping. */
  lemma {:induction false} ShippingAdjustmentsSound(o: Order, d: Discount, items: seq<LineItem>, ids: seq<int>,
                                                    a: OrderAdjustment)
    requires a in ShippingAdjustments(o, d, items, ids)
    ensures Emitted(a, o, d) && a.description == RemoveShippingCost && d.freeShipping
    ensures exists item :: item in items && item.id in ids && item.shippingTotal > 0
                           && a.lineItemId == Some(item.id) && a.amount == -item.shippingTotal
  {
    var init := items[..|items| - 1];
    var last := items[|items| - 1];
    assert last in items;
    if a in ShippingAdjustments(o, d, init, ids) {
      ShippingAdjustmentsSound(o, d, init, ids, a);
      var item :| item in init && item.id in ids && item.shippingTotal > 0
                  && a.lineItemId == Some(item.id) && a.amount == -item.shippingTotal;
      assert item in items;
    }
  }

  /** With free shipping, each line whose id is among `ids` and which
      carries shipping gets its shipping removal. */
  lemma {:induction false} ShippingAdjustmentsComplete(o: Order, d: Discount, items: seq<LineItem>, ids: seq<int>, k: nat)
    requires d.freeShipping && k < |items| && items[k].id in ids && items[k].shippingTotal > 0
    ensures CreateOrderAdjustment(o, d).(lineItemId := Some(items[k].id), amount := -items[k].shippingTotal,
                                         description := RemoveShippingCost)
            in ShippingAdjustments(o, d, items, ids)
  {
    if k < |items| - 1 {
      var init := items[..|items| - 1];
      assert init[k] == items[k];
      ShippingAdjustmentsComplete(o, d, init, ids, k);
    }
  }

  /** The adjustments of a discount that yields some: all made by that
      discount for the order; every one but the last is tied to a line;
      the last is order-level exactly when the base discount is set and
      not zero, and then it is the base discount. So the base discount
      appears once, last, or not at all. */
  lemma RuleAdjustmentsShape(svc: Services, o: Order, d: Discount, now: int)
    requires RuleAdjustments(svc, o, d, now).Some?
    ensures var l := RuleAdjustments(svc, o, d, now).value;
            && (forall a :: a in l ==> Emitted(a, o, d))
            && (forall i :: 0 <= i < |l| - 1 ==> l[i].lineItemId.Some?)
            && (l[|l| - 1].lineItemId.None? <==> d.baseDiscount.Some? && d.baseDiscount.value != 0)
            && (l[|l| - 1].lineItemId.None? ==> l[|l| - 1].amount == d.baseDiscount.value)
  {
    var l := RuleAdjustments(svc, o, d, now).value;
    var ids := MatchingTally(svc, o, d, o.lineItems).lineIds;
    var lines := LineItemAdjustments(svc.round, o, d, o.lineItems, ids);
    var shipping := ShippingAdjustments(o, d, o.lineItems, ids);
    var base := BaseAdjustment(o, d);
    assert l == lines + shipping + base;
    forall a | a in lines + shipping
      ensures Emitted(a, o, d) && a.lineItemId.Some?
    {
      if a in lines {
        LineItemAdjustmentsSound(svc.round, o, d, o.lineItems, ids, a);
      } else {
        ShippingAdjustmentsSound(o, d, o.lineItems, ids, a);
      }
    }
    forall i | 0 <= i < |l| - 1
      ensures l[i].lineItemId.Some?
    {
      if i < |lines + shipping| {
        assert l[i] == (lines + shipping)[i];
        assert l[i] in lines + shipping;
      }
    }
    if base == [] {
      assert l[|l| - 1] in lines + shipping;
    }
  }

  // ---------------------------------------------------------------------
  // Eligibility

  /** A line's id is among the matching ids exactly when some line with
      that id counts towards the discount. */
  lemma {:induction false} MatchingIds(svc: Services, o: Order, d: Discount, items: seq<LineItem>, id: int)
    ensures id in MatchingTally(svc, o, d, items).lineIds <==>
            exists item :: item in items && ItemCounts(svc, o, d, item) && item.id == id
  {
    if items != [] {
      var init := items[..|items| - 1];
      assert items == init + [items[|items| - 1]];
      MatchingIds(svc, o, d, init, id);
    }
  }

  /** The matching quantity, total and ids are sums and lists over the
      lines: those of two runs of lines add up. */
  lemma {:induction false} MatchingTallyConcat(svc: Services, o: Order, d: Discount, a: seq<LineItem>, b: seq<LineItem>)
    ensures var ta, tb, t := MatchingTally(svc, o, d, a), MatchingTally(svc, o, d, b), MatchingTally(svc, o, d, a + b);
            t.qty == ta.qty + tb.qty && t.total == ta.total + tb.total && t.lineIds == ta.lineIds + tb.lineIds
  {
    if b == [] {
      assert a + b == a;
    } else {
      var init := b[..|b| - 1];
      assert (a + b)[..|a + b| - 1] == a + init;
      assert (a + b)[|a + b| - 1] == b[|b| - 1];
      MatchingTallyConcat(svc, o, d, a, init);
    }
  }

  /** When no line counts, nothing is matched. */
  lemma {:induction false} NothingMatched(svc: Services, o: Order, d: Discount, items: seq<LineItem>)
    requires forall item :: item in items ==> !ItemCounts(svc, o, d, item)
    ensures MatchingTally(svc, o, d, items) == Tally(0, 0, [])
  {
    if items != [] {
      var init := items[..|items| - 1];
      assert items[|items| - 1] in items;
      forall item | item in init ensures !ItemCounts(svc, o, d, item) {
        assert item in items;
      }
      NothingMatched(svc, o, d, init);
    }
  }

  /** A discount restricted to user groups, for an order without a user or
      whose user is in none of them, yields nothing, so it never stops the
      evaluation even with `stopProcessing` set. */
  lemma GroupGateRejects(svc: Services, o: Order, d: Discount, now: int, rest: seq<Discount>)
    requires !d.allGroups && !InUserGroups(svc, o, d)
    ensures RuleAdjustments(svc, o, d, now).None?
    ensures Accumulate(svc, o, [d] + rest, now) == Accumulate(svc, o, rest, now)
  {
    NothingMatched(svc, o, d, o.lineItems);
    assert ([d] + rest)[1..] == rest;
  }

  /** The per-email limit: when the coupon matches, the order has an email
      and the limit is not zero, the discount is rejected once the
      previous orders of that email used the coupon `perEmailLimit` times;
      one use fewer does not reject it. */
  lemma PerEmailLimit(svc: Services, o: Order, d: Discount, now: int)
    requires EqualsIgnoreCase(o.couponCode, d.code) && Truthy(o.email) && d.perEmailLimit != 0
    ensures UsedCount(svc.getOrdersByEmail(o.email), d.code) >= d.perEmailLimit ==> RuleAdjustments(svc, o, d, now).None?
    ensures UsedCount(svc.getOrdersByEmail(o.email), d.code) < d.perEmailLimit ==> !PerEmailLimitReached(svc, o, d)
  {
  }

  /** A discount yields adjustments exactly when it passes every check and
      at least one of these is present: a matching line with a non-zero
      discount, a matching line with shipping under free shipping, or a
      non-zero base discount. */
  lemma RuleYieldsIff(svc: Services, o: Order, d: Discount, now: int)
    ensures var ids := MatchingTally(svc, o, d, o.lineItems).lineIds;
            RuleAdjustments(svc, o, d, now).Some? <==>
              && Eligible(svc, o, d, now)
              && (|| (exists item :: item in o.lineItems && item.id in ids && LineItemAmount(svc.round, d, item) != 0)
                  || (d.freeShipping && exists item :: item in o.lineItems && item.id in ids && item.shippingTotal > 0)
                  || (d.baseDiscount.Some? && d.baseDiscount.value != 0))
  {
    var ids := MatchingTally(svc, o, d, o.lineItems).lineIds;
    var lines := LineItemAdjustments(svc.round, o, d, o.lineItems, ids);
    var shipping := ShippingAdjustments(o, d, o.lineItems, ids);
    if lines != [] {
      LineItemAdjustmentsSound(svc.round, o, d, o.lineItems, ids, lines[0]);
    }
    if shipping != [] {
      ShippingAdjustmentsSound(o, d, o.lineItems, ids, shipping[0]);
    }
    if item :| item in o.lineItems && item.id in ids && LineItemAmount(svc.round, d, item) != 0 {
      var k :| 0 <= k < |o.lineItems| && o.lineItems[k] == item;
      LineItemAdjustmentsComplete(svc.round, o, d, o.lineItems, ids, k);
    }
    if item :| d.freeShipping && item in o.lineItems && item.id in ids && item.shippingTotal > 0 {
      var k :| 0 <= k < |o.lineItems| && o.lineItems[k] == item;
      ShippingAdjustmentsComplete(o, d, o.lineItems, ids, k);
    }
  }

  // ---------------------------------------------------------------------
  // The whole evaluation

  /** Every adjustment the evaluation of a list of candidates returns is of
      the discount type, belongs to the order, is not zero and came from one
      of the candidates. */
  lemma {:induction false} AccumulateEmitted(svc: Services, o: Order, ds: seq<Discount>, now: int)
    ensures forall a :: a in Accumulate(svc, o, ds, now) ==>
              && a.adjustmentType == AdjustmentType
              && a.orderId == o.id
              && a.amount != 0
              && a.sourceSnapshot in ds
  {
    if ds != [] {
      AccumulateEmitted(svc, o, ds[1..], now);
      if RuleAdjustments(svc, o, ds[0], now).Some? {
        RuleAdjustmentsShape(svc, o, ds[0], now);
      }
      forall a | a in Accumulate(svc, o, ds, now)
        ensures a.sourceSnapshot in ds
      {
        if a in Accumulate(svc, o, ds[1..], now) {
          assert a.sourceSnapshot in ds[1..];
        }
      }
    }
  }

  /** A discount that is not a candidate (it has a coupon and the order's
      coupon is not equal to it, ignoring case) contributes nothing to what
      the adjuster returns. */
  lemma NonCandidateContributesNothing(svc: Services, o: Order, catalogue: seq<Discount>, d: Discount, now: int)
    requires d.code != "" && !(Truthy(o.couponCode) && EqualsIgnoreCase(o.couponCode, d.code))
    ensures forall a :: a in Evaluate(svc, o, catalogue, now) ==> a.sourceSnapshot != d
  {
    CandidateMembership(o.couponCode, catalogue, d);
    AccumulateEmitted(svc, o, Candidates(o.couponCode, catalogue), now);
  }

  // ---------------------------------------------------------------------
  // The clamp

  /** By default the percentage is taken from the price net of the line's
      earlier discounts: the discount of a line under that subject is the
      discount under the original-price subject of the same line priced at
      its net price. So stacked percentage discounts compound. */
  lemma PercentageOffDiscountedPrice(round: real -> int, d: Discount, item: LineItem)
    requires d.percentageOffSubject == DiscountedSalePrice
    ensures LineItemDiscount(round, d, item)
            == LineItemDiscount(round, d.(percentageOffSubject := OriginalSalePrice),
                                item.(subtotal := item.subtotal + item.discountTotal))
  {
  }

  /** A line with subtotal 1000, earlier discounts of -800 and a discount of
      -500 per item on one item gets an adjustment of -2300, not -200. */
  lemma ClampExample(round: real -> int, d: Discount)
    requires round(-500 as real) == -500 && round(0 as real) == 0
    requires d.perItemDiscount == -500 && d.percentDiscount == 0
    ensures LineItemAmount(round, d, LineItem(1, 1, 1000, -800, 0)) == -2300
  {
    var item := LineItem(1, 1, 1000, -800, 0);
    assert (d.perItemDiscount * item.qty) as real == -500 as real;
    assert (d.percentDiscount * item.subtotal) as real / PercentScale as real == 0 as real;
    assert (d.percentDiscount * (item.subtotal + item.discountTotal)) as real / PercentScale as real == 0 as real;
  }
}
