# Spree order checkout and reconciliation, in Dafny

This project models the core of `Spree::Order`, the order of a storefront checkout. It is built from the examples in
`core/spec/models/order_spec.rb`, which pin down the order's behaviour. The model covers:

- **Reconciliation (`update!`, `update_totals`).**
  - The item, payment and adjustment totals and the order total.
  - The derived `payment_state` and `shipment_state`.
  - Keeping a checkout payment at the order total.
  - Calling the update hooks and `update!` on every shipment.
- **The derived queries.** `outstanding_balance(?)`, `complete?`, `checkout_allowed?`, `item_count`, `can_cancel?`,
  `backordered?`, `ship_total`, `tax_total`, `insufficient_stock_lines` and `products`.
- **`rate_hash`.** The priced shipping options, cheapest first.
- **`create_tax_charge!`.** Drop every tax adjustment, then add one labelled adjustment per matched rate.
- **The `next` event.** Each step of `cart → address → delivery → payment → confirm → complete`, the gateway-error
  refusal, `process_payments!` and `finalize!`.
- **The `cancel` event.**

## Structure

Value-level logic is written as functions and lemmas. The order itself is a class whose methods update its fields in
place, the way the Ruby methods do.

| module (file) | contents |
|---|---|
| `Wrappers` (wrappers.dfy) | `Option` and `Outcome` |
| `Money` (money.dfy) | Money as integer millionths of a unit; rounding to whole cents |
| `Seqs` (seqs.dfy) | `Sum` and `Filter` over sequences, with their algebra |
| `Entities` (entities.dfy) | Line items, payments, shipments, inventory units, adjustments, tax rates, state events, the external-call log, configuration, transition errors |
| `Aggregates` (aggregates.dfy) | The totals and the scoped collections (`payments.completed`, `adjustments.eligible`, `adjustments.tax`, ...) |
| `Reconciliation` (reconciliation.dfy) | `payment_state`, `shipment_state`, the checkout-payment synchronisation |
| `ShippingRates` (shipping_rates.dfy) | `rate_hash` |
| `TaxCharge` (tax_charge.dfy) | Tax labels and the adjustments after `create_tax_charge!` |
| `CheckoutFlow` (checkout_flow.dfy) | The checkout transition table |
| `Orders` (orders.dfy) | The `Order` class |
| `Scenarios` (scenarios.dfy) | The source's worked examples, stated over the model |

### Modelling decisions

- **Money.** Amounts are integers in millionths of a unit, because 100.012343 needs six decimal places.
  - The `paid` test compares total and payment total after rounding each to whole cents, halves away from zero, as
    Ruby's `Float#round(2)` does.
  - So 100.01 against 100.012343 is `paid`.
- **Collaborators outside the order.** These calls are entries appended to the order's `calls` log, in order:
  - the update hooks;
  - `Shipment#update!`;
  - `Payment#process!`;
  - `InventoryUnit.assign_opening_inventory`;
  - the confirmation and cancellation mailers.
- **Parameters.** The registered update hooks, the matched tax rates and the completion time are parameters.
  - So are the two configuration flags: `allow_checkout_on_gateway_error` and `track_inventory_levels`.
  - A gateway error is a parameter naming the payment whose `process!` raises.
- **Shipment state.** Shipment states are checked in this priority:
  1. no shipments gives nil;
  2. all shipped gives `shipped`;
  3. anything backordered gives `backorder`, even with some shipped (lines 356-361);
  4. all ready gives `ready`;
  5. all pending gives `pending`;
  6. anything else gives `partial`.
- **Checkout payment.** The payment that is kept at the order total is `order.payment`, the order's first payment, and
  only while its state is `checkout` (lines 392-399).
- **Tax recomputation.** `create_tax_charge!` destroys every tax adjustment, as the example at line 612 expects.
  - The model makes no exception for locked tax adjustments. The examples only show an unlocked charge being
    destroyed, so this is a modelling choice.
- **Tax labels.**
  - A rate's amount is held in ten-thousandths: 0.05 is 500.
  - The label prints it as an exact decimal percentage with one or two digits after the point: "5.0%", "15.0%",
    "7.25%".
- **Transition guards.** Two guards are modelling choices that the examples do not assert:
  - `cart → address` needs `checkout_allowed?`, that is, at least one line item;
  - `delivery` goes straight to `confirm` when the total is not positive. The example at lines 159-174 only covers
    a total of 10.0, which goes to payment.
- **Reconciliation after `next`.** Every `next` that passes ends with the recomputing part of `update!`. So the new
  tax adjustments and the new shipment are reflected in the totals and in `shipment_state` at once. The free-order
  test at `delivery` reads a total that was reconciled after the step before.
- **Completion despite a gateway error.** When the configuration allows checkout on gateway errors, the order
  completes anyway. This is a modelling choice: the example at line 115 that would assert it is pending.
- **State event.** `finalize!` logs one state event, `("order", cart → complete)`: it records the whole checkout
  rather than its last step. The example at lines 226-229 only expects an event to be created, so its content is a
  modelling choice.
- **Rate ties.** `rate_hash` is a stable sort, so options of equal cost keep the order of the available shipping
  methods.

## Model

| member | source | states |
|---|---|---|
| `Money.RoundToCents` | core/spec/models/order_spec.rb:304-309 | Rounding to cents moves an amount by at most half a cent, and keeps its sign |
| `Money.RoundWholeCents` | core/spec/models/order_spec.rb:312-338 | An amount in whole cents rounds to itself, so whole-cent totals are compared exactly |
| `Money.RoundMonotone` | core/spec/models/order_spec.rb:304-338 | Rounding to cents never reverses the order of two amounts, so the paid, short and over comparisons are consistent |
| `Money.SameCentsWithinOneCent` | core/spec/models/order_spec.rb:304-309 | Amounts that round to the same cent are less than a cent apart |
| `Money.CentApartRoundsApart` | core/spec/models/order_spec.rb:304-338 | Amounts a whole cent or more apart round to different cents, the lower one lower |
| `Seqs.SumAppend` | core/spec/models/order_spec.rb:431-465 | A total over a concatenation is the sum of the totals of the parts |
| `Seqs.Filter` | core/spec/models/order_spec.rb:438-444 | A scope (`completed`, `eligible`, `tax`, `shipping`) keeps exactly the members that satisfy its condition, and no more |
| `Seqs.FilterSnoc` | core/spec/models/order_spec.rb:438-444 | One more element joins a scope exactly when it satisfies the scope's condition, at the end |
| `Seqs.FilterPrefix` | core/spec/models/order_spec.rb:612-618 | Scanning one more element of a collection keeps it in the scope exactly when it satisfies the condition |
| `Seqs.SumNonNegative` | core/spec/models/order_spec.rb:494-500 | A total of non-negative terms is non-negative |
| `Aggregates.ItemTotal` | core/spec/models/order_spec.rb:432-437 | `item_total` is never negative when no line item has a negative price |
| `Aggregates.PaymentTotal` | core/spec/models/order_spec.rb:438-444 | `payment_total`; what it sums is stated by `Aggregates.PaymentTotalIsCompletedSum` |
| `Aggregates.AdjustmentTotal` | core/spec/models/order_spec.rb:446-458 | `adjustment_total`; what it sums is stated by `Aggregates.AdjustmentTotalIsEligibleSum` |
| `Aggregates.ItemCount` | core/spec/models/order_spec.rb:494-500 | `item_count` is never negative |
| `Aggregates.ShipTotal` | core/spec/models/order_spec.rb:549-555 | `ship_total` is a sum over all adjustments in which only shipping adjustments carry weight |
| `Aggregates.TaxTotal` | core/spec/models/order_spec.rb:556-562 | `tax_total` is a sum over all adjustments in which only tax adjustments carry weight |
| `Aggregates.PaymentTotalIsCompletedSum` | core/spec/models/order_spec.rb:438-444 | `payment_total` is the sum of the amounts of the completed payments, negative amounts included |
| `Aggregates.AdjustmentTotalIsEligibleSum` | core/spec/models/order_spec.rb:446-458 | `adjustment_total` is the sum of the amounts of the eligible adjustments |
| `Aggregates.IneligibleAdjustmentIgnored` | core/spec/models/order_spec.rb:446-458 | Adding ineligible adjustments leaves `adjustment_total` unchanged |
| `Aggregates.ItemTotalsAdd` | core/spec/models/order_spec.rb:432-437 | Item total and item count are additive over line items |
| `Aggregates.InsufficientStockLines` | core/spec/models/order_spec.rb:595-605 | `insufficient_stock_lines` holds exactly the line items that lack stock |
| `Aggregates.Products` | core/spec/models/order_spec.rb:37-45 | `products` lists each line item's product, in line-item order |
| `Aggregates.IsBackordered` | core/spec/models/order_spec.rb:285-291 | `backordered?` holds exactly when some inventory unit is backordered |
| `Reconciliation.OutstandingBalance` | core/spec/models/order_spec.rb:240-251 | The balance is positive exactly when less was paid than the total, and zero exactly when the two are equal |
| `Reconciliation.PaymentStateFor` | core/spec/models/order_spec.rb:304-338 | `paid` or `credit_owed` exactly when the payments reach the total to the cent; the full meaning is `Reconciliation.PaymentStateMeaning` |
| `Reconciliation.PaymentStateMeaning` | core/spec/models/order_spec.rb:304-338 | Each payment state holds exactly in its own case. `paid` exactly when the totals agree to the cent, so a zero balance is `paid` and a `paid` balance is under a cent either way. `credit_owed` exactly when the payments round higher. When they round lower, `failed` exactly when the last payment failed, otherwise `balance_due`. A balance of a whole cent or more is never `paid` |
| `Reconciliation.CountAllIn` | core/spec/models/order_spec.rb:341-381 | Counting the shipments in a state gives all of them exactly when every shipment is in that state |
| `Reconciliation.ShipmentStateFor` | core/spec/models/order_spec.rb:341-404 | No state exactly when there are no shipments, and `backorder` only when something is backordered; the full meaning is `Reconciliation.ShipmentStateMeaning` |
| `Reconciliation.ShipmentStateMeaning` | core/spec/models/order_spec.rb:341-381 | Each shipment state holds exactly in its own situation over the shipments: nil, `shipped`, `backorder`, `ready`, `pending`, `partial`. Some-but-not-all shipped gives `partial`, or `backorder` when backordered |
| `Reconciliation.SyncCheckoutPayment` | core/spec/models/order_spec.rb:392-399 | After the sync, a checkout payment carries the order total. Every other payment and every payment state is unchanged, and an already synchronised list is left as it is |
| `Reconciliation.SyncKeepsPaymentState` | core/spec/models/order_spec.rb:392-399 | The sync changes neither `payment_total` nor `payment_state` |
| `ShippingRates.Priced` | core/spec/models/order_spec.rb:588-592 | Every priced quote gives an option, and every option comes from a priced quote; a quote without a cost gives nothing (count and order: `ShippingRates.PricedFollowsQuotes`) |
| `ShippingRates.PricedFollowsQuotes` | core/spec/models/order_spec.rb:583-592 | The options are the priced quotes, one each and in quote order: the i-th option comes from the i-th priced quote |
| `ShippingRates.InsertByCost` | core/spec/models/order_spec.rb:583-586 | Insertion adds exactly the new option |
| `ShippingRates.InsertKeepsSorted` | core/spec/models/order_spec.rb:583-586 | Inserting into a cost-sorted list keeps it sorted |
| `ShippingRates.SortByCost` | core/spec/models/order_spec.rb:583-586 | Sorting is a permutation |
| `ShippingRates.SortIsSorted` | core/spec/models/order_spec.rb:583-586 | The sort's result ascends by cost |
| `ShippingRates.RateHash` | core/spec/models/order_spec.rb:573-593 | `rate_hash` ascends by cost and is a permutation of the priced options. Each priced method appears, no unpriced one does, and each option carries its method's name and id |
| `TaxCharge.DigitChar` | core/spec/models/order_spec.rb:620-629 | A digit prints as the character with that digit value |
| `TaxCharge.NatText` | core/spec/models/order_spec.rb:620-629 | A whole number prints as a non-empty string of digits with no leading zero; only 0 prints as "0" |
| `TaxCharge.NatTextValue` | core/spec/models/order_spec.rb:620-629 | The printed digits read back as the number |
| `TaxCharge.PointAfterDigits` | core/spec/models/order_spec.rb:620-629 | The decimal point of a printed rate comes right after its whole part |
| `TaxCharge.PercentText` | core/spec/models/order_spec.rb:620-629 | A printed percentage has a whole part without leading zeros, then a point. It has one digit after the point when the rate is a whole tenth of a percent, otherwise two digits, the last not zero ("5.0", "7.25", never "05.00") |
| `TaxCharge.PercentTextRoundTrip` | core/spec/models/order_spec.rb:620-629 | A printed percentage reads back as the rate it came from, so distinct rates get distinct labels |
| `TaxCharge.TaxLabelRoundTrip` | core/spec/models/order_spec.rb:620-629 | A tax label "<description> <rate>%" reads back as its rate |
| `TaxCharge.TaxLabel` | core/spec/models/order_spec.rb:620-629 | A label starts with the calculator's description and a space and ends with '%' |
| `TaxCharge.TaxAdjustment` | core/spec/models/order_spec.rb:620-629 | A created adjustment is a mandatory, eligible, unlocked tax adjustment from its rate, for the calculator's charge and labelled with `TaxLabel` |
| `TaxCharge.TaxAdjustments` | core/spec/models/order_spec.rb:620-629 | `create_tax_charge!` creates one adjustment per matched rate, in rate order |
| `TaxCharge.TaxCharged` | core/spec/models/order_spec.rb:607-630 | Recomputation leaves the kept non-tax adjustments plus one per matched rate, and introduces no non-tax adjustment of its own |
| `TaxCharge.TaxChargedReplacesTax` | core/spec/models/order_spec.rb:607-630 | After recomputation the tax adjustments are exactly the new ones, one per matched rate; with no matching rate there are none |
| `TaxCharge.TaxChargedKeepsOthers` | core/spec/models/order_spec.rb:607-630 | Recomputation keeps every non-tax adjustment, in order |
| `TaxCharge.TaxChargedTaxTotal` | core/spec/models/order_spec.rb:607-630 | After recomputation the tax total is the sum of the matched rates' charges |
| `TaxCharge.TaxChargedLabels` | core/spec/models/order_spec.rb:620-629 | After recomputation the i-th tax adjustment carries the i-th rate's charge, and its label reads back as that rate |
| `TaxCharge.TaxChargeIdempotent` | core/spec/models/order_spec.rb:140-155 | Recomputing tax twice gives the same adjustments as once, with no duplicates |
| `CheckoutFlow.NextStateMeaning` | core/spec/models/order_spec.rb:86-176 | Each state has its `next` target. Cart needs `checkout_allowed?`. Delivery goes to payment, or to confirm when nothing is owed. Complete and canceled have no `next` |
| `CheckoutFlow.NextState` | core/spec/models/order_spec.rb:86-176 | A permitted `next` always moves the order forward; the full table is `CheckoutFlow.NextStateMeaning` |
| `CheckoutFlow.AdvanceProgress` | core/spec/models/order_spec.rb:86-176 | Every `next` moves the order forward, at most two steps |
| `CheckoutFlow.CheckoutCompletes` | core/spec/models/order_spec.rb:86-176 | A cart with line items completes in five `next` events, or four when nothing is owed |
| `Orders.HookCalls` | core/spec/models/order_spec.rb:383-390 | One call per registered hook, in registration order |
| `Orders.ShipmentUpdateCalls` | core/spec/models/order_spec.rb:422-428 | One `update!` per shipment, in order |
| `Orders.PaymentProcessCalls` | core/spec/models/order_spec.rb:232-238 | One `process!` per payment, in order |
| `Orders.WithShipment` | core/spec/models/order_spec.rb:160-174 | After `create_shipment!` the order has a shipment carrying its shipping method; an order without one gets exactly one, pending |
| `Orders.LockingKeepsTotals` | core/spec/models/order_spec.rb:218-224 | Locking leaves every optional adjustment locked and every amount, originator and eligibility unchanged. The adjustment, tax and shipping totals stay the same |
| `Orders.DestroyTaxAdjustments` | core/spec/models/order_spec.rb:612-618 | The loop that destroys tax adjustments leaves exactly the non-tax ones, in order |
| `Orders.CreateTaxAdjustments` | core/spec/models/order_spec.rb:620-629 | The loop over the matched rates creates exactly `TaxAdjustments` of them |
| `Orders.Order.constructor` | core/spec/models/order_spec.rb:192-193 | A new order is an empty cart with zero totals and no derived states |
| `Orders.Order.IsComplete` | core/spec/models/order_spec.rb:275-283 | `complete?`: the order has a completion time |
| `Orders.Order.CheckoutAllowed` | core/spec/models/order_spec.rb:483-492 | `checkout_allowed?`: the order has line items |
| `Orders.Order.PaymentRequired` | core/spec/models/order_spec.rb:159-174 | The order has a positive total, so checkout passes through payment |
| `Orders.Order.ItemCount` | core/spec/models/order_spec.rb:494-500 | `item_count` is never negative |
| `Orders.Order.ShipTotal` | core/spec/models/order_spec.rb:549-555 | `ship_total` weighs only the shipping adjustments |
| `Orders.Order.TaxTotal` | core/spec/models/order_spec.rb:556-562 | `tax_total` weighs only the tax adjustments |
| `Orders.Order.InsufficientStockLines` | core/spec/models/order_spec.rb:595-605 | Exactly the order's line items that lack stock |
| `Orders.Order.Products` | core/spec/models/order_spec.rb:37-45 | One product per line item, in line-item order |
| `Orders.Order.IsBackordered` | core/spec/models/order_spec.rb:285-291 | Holds exactly when some inventory unit is backordered |
| `Orders.Order.OutstandingBalance` | core/spec/models/order_spec.rb:240-251 | The balance's sign agrees with the payment state of a reconciled order, and it may be negative |
| `Orders.Order.HasOutstandingBalance` | core/spec/models/order_spec.rb:254-270 | `outstanding_balance?` holds exactly when total and payment total differ; a reconciled order without a balance is `paid` |
| `Orders.Order.CanCancel` | core/spec/models/order_spec.rb:510-528 | `can_cancel?` holds exactly for a completed, not canceled order whose shipment state is pending, ready or backorder |
| `Orders.Order.UpdateTotals` | core/spec/models/order_spec.rb:431-465 | `update_totals` sets the item, payment and adjustment totals from the collections, and sets total to item total plus adjustment total |
| `Orders.Order.UpdatePaymentState` | core/spec/models/order_spec.rb:304-338 | Sets `payment_state` from the totals and the last payment |
| `Orders.Order.UpdateShipmentState` | core/spec/models/order_spec.rb:341-381 | Sets `shipment_state` from the shipments and `backordered?` |
| `Orders.Order.SyncCheckoutPaymentAmount` | core/spec/models/order_spec.rb:392-399 | Sets a checkout payment's amount to the order total |
| `Orders.Order.RunUpdateHooks` | core/spec/models/order_spec.rb:383-390 | Calls each update hook once, in order |
| `Orders.Order.UpdateShipments` | core/spec/models/order_spec.rb:422-428 | Calls `update!` on every shipment, in order |
| `Orders.Order.Reconcile` | core/spec/models/order_spec.rb:300-409 | The recomputing part of `update!` leaves the order reconciled, and changes nothing on an order that already was |
| `Orders.Order.Update` | core/spec/models/order_spec.rb:300-429 | `update!` leaves the order reconciled: totals, both derived states and the checkout payment agree with the collections. It calls the hooks, then every shipment's `update!`. On an already reconciled order it changes nothing but the calls made |
| `Orders.Order.CreateTaxCharge` | core/spec/models/order_spec.rb:607-630 | The adjustments become the non-tax adjustments followed by one new adjustment per matched rate |
| `Orders.Order.CreateShipment` | core/spec/models/order_spec.rb:160-174 | The shipments become `WithShipment` of the old ones |
| `Orders.Order.ProcessPayments` | core/spec/models/order_spec.rb:232-238 | Processes the payments in order and stops at, and reports, the one whose gateway call raises |
| `Orders.Order.LockOptionalAdjustments` | core/spec/models/order_spec.rb:218-224 | Locks exactly the optional adjustments, one at a time, and keeps a reconciled order reconciled |
| `Orders.Order.Finalize` | core/spec/models/order_spec.rb:192-230 | `finalize!` sets `completed_at` and locks the optional adjustments. Opening inventory is assigned only when tracking is on, then the confirmation goes out and a state event is logged. A reconciled order stays reconciled |
| `Orders.Order.Transition` | core/spec/models/order_spec.rb:86-176 | The step of `next` before reconciliation follows the transition table. Address to delivery recomputes tax. Delivery to payment creates the shipment. Confirm to complete processes payments and runs `finalize!`, unless a gateway error is not tolerated: then the order stays in confirm. A refused step changes no state, adjustment, shipment, completion time or state event |
| `Orders.Order.CompleteCheckout` | core/spec/models/order_spec.rb:87-123 | Leaving confirm processes the payments up to the one that fails. It stays in confirm on a gateway error the configuration does not tolerate; otherwise it completes and runs `finalize!` |
| `Orders.Order.Next` | core/spec/models/order_spec.rb:86-176 | `next` makes the step `Transition` states. When it passes, the order is then reconciled: totals, both derived states and the checkout payment agree with the new tax adjustments and shipment. A refused `next` leaves the totals, states and payments as they were |
| `Orders.Order.Cancel` | core/spec/models/order_spec.rb:530-540 | `cancel` succeeds exactly when `can_cancel?` holds, moves the order to canceled and sends the cancellation e-mail; afterwards the order cannot be canceled again |
| `Scenarios.TotalsExample` | core/spec/models/order_spec.rb:431-465 | Items of 100 and 50 total 150. Payments of 100 and -10 total 90. Adjustments of 10, 5 and an ineligible -2 total 15. The order total is 165 |
| `Scenarios.ItemCountAndProductsExample` | core/spec/models/order_spec.rb:494-500 | Quantities 2 and 1 count 3 items; products come back in line-item order |
| `Scenarios.PaymentStateExamples` | core/spec/models/order_spec.rb:304-338 | 100.01 against 100.012343 is paid. 100 against 50 is `balance_due`, or `failed` after a failed payment. 100 against 150 is `credit_owed` |
| `Scenarios.ShipmentStateExamples` | core/spec/models/order_spec.rb:341-404 | The shipped, backorder, partial, ready, pending and no-shipment examples give their expected states |
| `Scenarios.OutstandingBalanceExamples` | core/spec/models/order_spec.rb:240-251 | 30.30 less 20.20 is 10.10; 8.20 less 10.20 is -2.00 |
| `Scenarios.ShipAndTaxTotalExample` | core/spec/models/order_spec.rb:545-562 | Shipping and tax adjustments of 5 and 10 total 15 each |
| `Scenarios.AirGroundPriced` | core/spec/models/order_spec.rb:583-586 | Air at 10.0 and ground at 0.0 are both priced, in quote order |
| `Scenarios.AirGroundSorted` | core/spec/models/order_spec.rb:583-586 | Sorting air at 10.0 and ground at 0.0 by cost puts ground first |
| `Scenarios.RateHashSortedExample` | core/spec/models/order_spec.rb:583-586 | Air at 10.0 and ground at 0.0 come back ground first |
| `Scenarios.RateHashUnpricedExample` | core/spec/models/order_spec.rb:588-592 | An unpriced air method is dropped |
| `Scenarios.TaxLabelExamples` | core/spec/models/order_spec.rb:620-629 | Rates 0.05 and 0.15 are labelled "Money for the man 5.0%" and "Money for the man 15.0%" |
| `Scenarios.TaxChargeExamples` | core/spec/models/order_spec.rb:140-155 | Two matched rates leave exactly two tax adjustments. With no matching rate, the old charge is still removed |
| `Scenarios.DeliveryExamples` | core/spec/models/order_spec.rb:160-174 | From delivery an order that owes something goes to payment, and a free order goes to confirm |

## Left out

- Guest-user creation and e-mail assignment on `save`, order-number generation and validation (lines 47-81, 178-190,
  502-507): persistence concerns of the record, not checkout logic.
- `payment_method` (lines 469-481): it reads the gateway configuration and the available payment methods, which
  are not part of this model.
- `Orders.Order.IsBackordered`: ignores the inventory-tracking setting. The example saying it is always false with
  tracking off (line 293) is pending.
- The VAT default-country fallback in `create_tax_charge!` (line 635): a pending example.
- The no-shipping-methods guard on `address → delivery`, shipment creation from inventory groupings, and
  ready-versus-pending shipments: the model creates a single pending shipment, or reuses the existing one.
- Removal of zero-quantity line items on save (line 83), the shipment state on a paid finalize (line 202), and
  restocking and shipment changes on cancel (lines 541-542): pending examples.
- `Orders.Order.Update`: does not call `update!` on each adjustment and does not recompute eligibility (line 411 is a
  pending example). Adjustment eligibility is taken as stored.
- What the collaborators do (hooks, `Shipment#update!`, `Payment#process!`, inventory assignment, the mailers): these
  are recorded as calls, not modelled.
- Mail delivery failures, the user recorded in a state event, and the timestamps of state events.
- Memoisation of the derived queries.
- Transactions, row locking and concurrent requests on one order.
- Floating-point money: amounts are exact integers in millionths of a unit.
