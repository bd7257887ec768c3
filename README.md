# Discount adjuster of an e-commerce plugin, modelled in Dafny

The plugin computes the adjustments of an order's total. Its discount
adjuster (`src/adjusters/Discount.php`) takes an order and the discount
catalogue and returns a list of signed monetary adjustments of type
`discount`. It works in three stages:

1. **Candidate selection.** It keeps the discounts without a coupon, plus
   those whose coupon equals the order's coupon, ignoring case. Catalogue
   order is kept.
2. **Eligibility.** Each candidate goes through a fail-closed pipeline:
   - the per-email usage limit;
   - the date window;
   - line-item matching, with an optional user-group gate;
   - the quantity and amount thresholds.
3. **Adjustments.** A surviving discount produces, in this order:
   - one adjustment per matching line, with the clamp;
   - one shipping removal per matching line that carries shipping, when
     the discount gives free shipping;
   - one order-level base discount.

The per-discount lists are concatenated in candidate order. A discount
with `stopProcessing` that produced adjustments ends the evaluation.

Files:
- `wrappers.dfy`: the `Option` type.
- `php_strings.dfy`: PHP string truthiness and `strcasecmp`.
- `models.dfy`: the order, line item, discount and adjustment records, and
  the plugin services the adjuster calls.
- `adjusters.dfy`:
  - the functions that say what each stage computes;
  - the class `DiscountAdjuster`, whose methods do the work step by step
    as the PHP class does. Each method is proved to compute its function.
    The two loops of `adjust` are methods of their own
    (`SelectCandidates`, `EvaluateCandidates`). So are the four loops of
    `_getAdjustments` (`CountUses`, `MatchLineItems`,
    `AppendLineItemDiscounts`, `AppendShippingRemovals`) and the body of
    its line loop (`LineItemAdjustment`). Each is called where the PHP
    code has it.
- `discount_properties.dfy`: the lemmas about those functions.

Representation choices:
- Money is an integer count of the currency's minor units.
- `percentDiscount` is a scaled integer: the fraction times 10000.
- Currency rounding is an opaque function `round: real -> int` among the
  services.
- A nullable string is `""`. In every comparison the adjuster makes, PHP
  treats `null` and `""` alike.
- PHP truthiness is written out: the strings `""` and `"0"` are false, and
  an integer is false only when it is 0.

The code behaves as follows in these places, and the model follows the
code.
- **The clamp does not cap.** Its comment (Discount.php:203) says the clamp
  caps a line's cumulative discount at its subtotal. The formula at :204-211 emits
  `(lineItemDiscount + priorDiscount) - subtotal` instead. Example: a line
  with subtotal 10.00, an earlier discount of -8.00 and a new discount of
  -5.00 gets -23.00, not -2.00. The contract of `LineItemAmount` and the lemma
  `ClampExample` state this.
- **"Has a coupon" means truthy.** A coupon of `"0"` counts as no coupon
  in candidate selection (:67). An email of `"0"` counts as no email
  (:119).
- **The per-email check can fire for a discount without a coupon.** The
  coupon comparison at :118 also holds when both the discount and the order
  have no coupon. Such a discount is then limited by the number of earlier
  orders that had no coupon.
- **A negative `perEmailLimit` rejects whenever the per-email check runs.**
  The check runs only when the coupon matches and the email is truthy
  (:118-119). The limit is then tested for being non-zero, not positive, so
  any use count reaches a negative limit. With an empty or `"0"` email the
  limit is not read at all. `PerEmailLimitReached` states both cases.

## Model

| member | source | states |
|---|---|---|
| `Adjusters.DiscountAdjuster.constructor` | src/adjusters/Discount.php:38-46 | a new adjuster has no current order and no current discount |
| `Adjusters.DiscountAdjuster.Adjust` | src/adjusters/Discount.php:54-85 | records the order and returns the combined adjustments of the candidates (`Evaluate`); an empty catalogue yields no adjustments; the current discount is unchanged when there is no candidate, and is otherwise the candidate at index `LastEvaluated`, a discount of the catalogue |
| `Adjusters.DiscountAdjuster.SelectCandidates` | src/adjusters/Discount.php:61-70 | its two-`if` loop builds exactly the candidates, in catalogue order (`Candidates`) |
| `Adjusters.DiscountAdjuster.EvaluateCandidates` | src/adjusters/Discount.php:72-84 | its loop, which ends early after a discount with `stopProcessing` that yielded adjustments, returns `Accumulate` of the candidates; the current discount is left exactly at the candidate at index `LastEvaluated` (unchanged when there is no candidate) |
| `Adjusters.DiscountAdjuster.GetAdjustments` | src/adjusters/Discount.php:111-249 | records the discount being evaluated; its checks, in the adjuster's order, and the lists built by its helpers return exactly the discount's adjustments (`RuleAdjustments`), or None (the PHP `false`) when a check rejects it or nothing is produced |
| `Adjusters.DiscountAdjuster.CountUses` | src/adjusters/Discount.php:122-128 | its counting loop returns the number of previous orders whose coupon equals the discount's, ignoring case (`UsedCount`) |
| `Adjusters.DiscountAdjuster.MatchLineItems` | src/adjusters/Discount.php:143-164 | its loop returns the summed quantity and subtotal and the ids, in line order, of the lines the matcher accepts and whose user passes the group gate (`MatchingTally`) |
| `Adjusters.DiscountAdjuster.LineItemAdjustment` | src/adjusters/Discount.php:187-212 | the adjustment built for one matching line is the template tied to that line, with the clamped amount `LineItemAmount` |
| `Adjusters.DiscountAdjuster.AppendLineItemDiscounts` | src/adjusters/Discount.php:185-218 | its loop appends exactly the line adjustments, with the clamp as written, that `LineItemAdjustments` defines, after the adjustments already present |
| `Adjusters.DiscountAdjuster.AppendShippingRemovals` | src/adjusters/Discount.php:220-231 | its loop appends exactly the shipping removals that `ShippingAdjustments` defines, after the adjustments already present |
| `Adjusters.CreateOrderAdjustment` | src/adjusters/Discount.php:94-105 | the template adjustment has type `discount`, the order's id, and the discount's name, description and snapshot |
| `Adjusters.IsCandidate` | src/adjusters/Discount.php:63-68 | a discount without a coupon is always considered; one with a coupon only for a truthy order coupon of the same length; for an order without a (truthy) coupon, exactly the discounts without a coupon |
| `Adjusters.Candidates` | src/adjusters/Discount.php:61-70 | selection never yields more discounts than the catalogue holds, and yields none when no discount of the catalogue is a candidate |
| `Adjusters.PerEmailLimitReached` | src/adjusters/Discount.php:117-134 | the limit can only be reached when the email's previous orders number at least the limit; it never rejects with a falsy email or a zero limit; a negative limit rejects whenever the coupon matches and the email is truthy |
| `Adjusters.OutsideWindow` | src/adjusters/Discount.php:136-141 | both bounds are inclusive: an open window, or bounds equal to the instant, never reject; a window whose start is after its end rejects every instant |
| `Adjusters.InUserGroups` | src/adjusters/Discount.php:149-153 | the group gate: never passed by an order without a user, nor for a discount with no user groups |
| `Adjusters.ItemCounts` | src/adjusters/Discount.php:148-162 | a line counts only if the matcher accepts it; for a group-restricted discount, never on an order without a user; for a discount open to all groups, exactly when the matcher accepts it |
| `Adjusters.PassesThresholds` | src/adjusters/Discount.php:166-183 | a zero matching quantity is rejected; a passing tally has quantity ≥ `purchaseQty` and total ≥ `purchaseTotal`, and, with a positive maximum, quantity ≤ the maximum; the lower bounds are inclusive: a non-zero quantity equal to `purchaseQty` and a total equal to `purchaseTotal` pass when the maximum allows; a minimum above a positive maximum rejects every tally |
| `Adjusters.Eligible` | src/adjusters/Discount.php:117-183 | the fail-closed checks: an eligible discount matched at least one line; a window whose start is after its end makes a discount ineligible; with a falsy email or a zero limit, eligibility is exactly the date window plus the thresholds |
| `Adjusters.UsedCount` | src/adjusters/Discount.php:122-128 | the coupon's use count never exceeds the number of previous orders |
| `Adjusters.MatchingTally` | src/adjusters/Discount.php:144-164 | there are never more matching ids than lines, and with no matching id the quantity and total are 0 |
| `Adjusters.LineItemDiscount` | src/adjusters/Discount.php:190-200 | the rounded per-item amount plus the rounded percentage; the percentage is taken from the subtotal under the original-price subject, and also under the discounted-price subject when the line has no earlier discount (the default subject is stated by `PercentageOffDiscountedPrice`) |
| `Adjusters.LineItemAmount` | src/adjusters/Discount.php:202-212 | the clamp as written: it fires only when the net line price would go below zero, otherwise the amount is the computed discount and the net stays ≥ 0; when it fires on a non-negative subtotal with non-positive earlier discounts, the amount is at least as large a discount as the computed one and the net goes below minus the subtotal, so it does not cap |
| `Adjusters.LineItemAdjustments` | src/adjusters/Discount.php:185-218 | at most one adjustment per line, and none when no line matched |
| `Adjusters.ShippingAdjustments` | src/adjusters/Discount.php:220-231 | at most one removal per line, and none without free shipping or when no line matched |
| `Adjusters.BaseAdjustment` | src/adjusters/Discount.php:233-240 | at most one adjustment, present iff the base discount is set and non-zero; it is an order-level `discount` adjustment of the order whose amount is the base discount |
| `Adjusters.RuleAdjustments` | src/adjusters/Discount.php:242-248 | a discount that yields adjustments yields a non-empty list; an empty list is reported as None |
| `Adjusters.Accumulate` | src/adjusters/Discount.php:72-84 | no candidates yield no adjustments; its stopping rule is stated by `AccumulateWithoutStop`, `AccumulateStopsAt` and `AccumulateStartsWithFirst` |
| `Adjusters.LastEvaluated` | src/adjusters/Discount.php:72-84 | the index of the last candidate evaluated lies within the candidates, at or after where evaluation resumes; `LastEvaluatedIsFirstStop` says which it is |
| `Adjusters.Evaluate` | src/adjusters/Discount.php:54-85 | an empty catalogue yields no adjustments, and so does a catalogue of coupon discounts for an order without a (truthy) coupon |
| `DiscountProperties.CandidatesConcat` | src/adjusters/Discount.php:61-70 | selection distributes over concatenated catalogues, so candidates keep catalogue order |
| `DiscountProperties.CandidateMembership` | src/adjusters/Discount.php:63-68 | a discount is a candidate iff it is in the catalogue and either has no coupon, or the order's coupon is truthy and equals its coupon ignoring case |
| `DiscountProperties.AccumulateStartsWithFirst` | src/adjusters/Discount.php:72-84 | the first candidate's adjustments, when it yields some, open the result |
| `DiscountProperties.LastEvaluatedIsFirstStop` | src/adjusters/Discount.php:72-84 | the last candidate evaluated is the first that has `stopProcessing` and yields adjustments, or the last candidate when none does |
| `DiscountProperties.AccumulateWithoutStop` | src/adjusters/Discount.php:72-84 | if no candidate both has `stopProcessing` and produces adjustments, the result is every candidate's list concatenated in order; a rejected `stopProcessing` discount does not stop anything |
| `DiscountProperties.AccumulateStopsAt` | src/adjusters/Discount.php:72-84 | if candidate k is the first that has `stopProcessing` and produces adjustments, the result is the lists of candidates 0..k and nothing after |
| `DiscountProperties.LineItemAdjustmentsSound` | src/adjusters/Discount.php:185-218 | each line adjustment belongs to a line whose id is among the matching ids; its amount is that line's computed amount, is not zero, has type `discount` and carries the discount's description |
| `DiscountProperties.LineItemAdjustmentsComplete` | src/adjusters/Discount.php:185-218 | every line whose id is among the matching ids and whose computed amount is not zero gets its adjustment |
| `DiscountProperties.LineItemAdjustmentsConcat` | src/adjusters/Discount.php:185-218 | line adjustments follow line order |
| `DiscountProperties.ShippingAdjustmentsConcat` | src/adjusters/Discount.php:220-231 | shipping removals distribute over concatenated lines, so they follow line order |
| `DiscountProperties.ShippingAdjustmentsSound` | src/adjusters/Discount.php:220-231 | each shipping removal needs free shipping and a matching line with positive shipping; its amount is minus that shipping and its description is "Remove Shipping Cost" |
| `DiscountProperties.ShippingAdjustmentsComplete` | src/adjusters/Discount.php:220-231 | under free shipping, every matching line with positive shipping gets its removal |
| `DiscountProperties.RuleAdjustmentsShape` | src/adjusters/Discount.php:185-248 | every adjustment of a discount was made by it for the order and is non-zero; all but the last are tied to a line; the last is order-level iff the base discount is set and non-zero, and then its amount is the base discount, so the base discount appears once, last, or not at all |
| `DiscountProperties.MatchingIds` | src/adjusters/Discount.php:147-164 | an id is among the matching ids iff some line with that id is accepted by the matcher and passes the user-group gate |
| `DiscountProperties.MatchingTallyConcat` | src/adjusters/Discount.php:144-164 | the matching quantity and total are sums over the lines, and the ids a list over them |
| `DiscountProperties.NothingMatched` | src/adjusters/Discount.php:144-164 | when no line counts, the matching quantity, total and ids are 0, 0 and empty |
| `DiscountProperties.GroupGateRejects` | src/adjusters/Discount.php:149-168 | a group-restricted discount, for an order without a user or whose user is in none of its groups, yields nothing, so it does not stop later discounts |
| `DiscountProperties.PerEmailLimit` | src/adjusters/Discount.php:117-134 | with a matching coupon, a truthy email and a non-zero limit, the discount is rejected when the coupon's earlier uses reach the limit, and not rejected by the limit one use below it |
| `DiscountProperties.RuleYieldsIff` | src/adjusters/Discount.php:117-248 | a discount yields adjustments iff it passes all the checks and, in addition, at least one of these holds: a matching line has a non-zero amount; free shipping applies to a matching line with shipping; the base discount is non-zero. The checks are: the per-email limit, the inclusive date window, quantity ≠ 0, quantity ≤ a positive maximum, quantity ≥ `purchaseQty`, total ≥ `purchaseTotal` |
| `DiscountProperties.AccumulateEmitted` | src/adjusters/Discount.php:72-84 | every adjustment returned has type `discount`, the order's id, a non-zero amount, and came from one of the candidates |
| `DiscountProperties.NonCandidateContributesNothing` | src/adjusters/Discount.php:61-84 | a discount with a coupon that the order's coupon does not match contributes no adjustment |
| `DiscountProperties.ClampExample` | src/adjusters/Discount.php:190-212 | subtotal 1000, earlier discounts -800 and -500 per item on one item give -2300 |
| `DiscountProperties.PercentageOffDiscountedPrice` | src/adjusters/Discount.php:190-200 | under the default (discounted-price) subject, a line's discount is the original-price discount of the same line priced at its subtotal plus its earlier discounts, so stacked percentage discounts compound |

## Left out

- The discount catalogue, the line-item matcher, the previous orders of an email address, the user groups of a user and the currency rounding are plugin services. They are inputs: the catalogue is a parameter, the rest are total functions in `Services`. Their own logic is not part of this model.
- The clock: the adjuster reads `new \DateTime()` once per discount, while the model takes a single instant `now` for the whole call. Two discounts evaluated across a clock tick are not modelled.
- Floating-point money: amounts are exact integers in minor units. `percentDiscount` has four decimals. Float rounding effects before `Currency::round` are not modelled.
- `Craft::t('commerce', 'Remove Shipping Cost')` is the constant untranslated string.
- `sourceSnapshot` holds the discount record itself, standing for the copy of its attributes.
- `OrderAdjustment` objects are values. Each is freshly created, filled in and appended once, so aliasing between them does not arise.
- `strcasecmp` is ASCII case folding on characters; PHP compares bytes.
- Line-item ids are integers. `in_array`'s loose comparison is therefore plain equality, and null ids of unsaved lines are not modelled.
- `$order->getCustomer()->getUser()` is the order's `user` field (None when there is no customer or no user). `getUserGroupIdsForUser` is a service over a user id. Group ids are sets, since only whether they intersect matters.
- The order controller, the variants service and the customer record are framework glue and are not part of this model.
