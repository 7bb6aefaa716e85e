/**
 * The order: its primary checkout state, its collections, its totals and
 * derived states, all updated in place by reconciliation (`update!`), tax
 * recomputation (`create_tax_charge!`), shipment creation, payment
 * processing, finalization and the `next` and `cancel` events.
 */
module Orders {
  import opened Wrappers
  import opened Money
  import opened Seqs
  import opened Entities
  import opened Aggregates
  import opened Reconciliation
  import opened TaxCharge
  import opened CheckoutFlow

  /** The calls made to the registered update hooks, in registration order. */
  function HookCalls(hooks: seq<string>): (r: seq<ExternalCall>)
    ensures |r| == |hooks|
    ensures forall i :: 0 <= i < |hooks| ==> r[i] == RunUpdateHook(hooks[i])
  {
    if |hooks| == 0 then [] else HookCalls(hooks[..|hooks| - 1]) + [RunUpdateHook(hooks[|hooks| - 1])]
  }

  /** The `update!` calls on shipments 0 to n - 1, in order. */
  function ShipmentUpdateCalls(n: nat): (r: seq<ExternalCall>)
    ensures |r| == n
    ensures forall i :: 0 <= i < n ==> r[i] == UpdateShipment(i)
  {
    if n == 0 then [] else ShipmentUpdateCalls(n - 1) + [UpdateShipment(n - 1)]
  }

  /** The `process!` calls on payments 0 to n - 1, in order. */
  function PaymentProcessCalls(n: nat): (r: seq<ExternalCall>)
    ensures |r| == n
    ensures forall i :: 0 <= i < n ==> r[i] == ProcessPayment(i)
  {
    if n == 0 then [] else PaymentProcessCalls(n - 1) + [ProcessPayment(n - 1)]
  }

  /** The shipments after `create_shipment!`: the existing shipment gets the order's shipping method, or one is created. */
  function WithShipment(shipments: seq<Shipment>, shippingMethod: Option<ShippingMethod>): (r: seq<Shipment>)
    ensures |r| == if |shipments| == 0 then 1 else |shipments|
    ensures r[0].shippingMethod == shippingMethod
    ensures |shipments| == 0 ==> r[0].state == ShipmentPending
    ensures |shipments| > 0 ==> r[0].state == shipments[0].state
    ensures forall i :: 0 < i < |r| ==> r[i] == shipments[i]
  {
    if |shipments| == 0 then [Shipment(ShipmentPending, shippingMethod)]
    else shipments[0 := shipments[0].(shippingMethod := shippingMethod)]
  }

  /** An optional (non-mandatory) adjustment, locked. */
  function LockIfOptional(a: Adjustment): Adjustment
  {
    if a.mandatory then a else a.(locked := true)
  }

  /** `after` is `before` with every optional adjustment locked. */
  ghost predicate LockedOptional(before: seq<Adjustment>, after: seq<Adjustment>)
  {
    |after| == |before| && forall i :: 0 <= i < |before| ==> after[i] == LockIfOptional(before[i])
  }

  /**
   * Locking optional adjustments freezes every one of them, changes no
   * amount, originator or eligibility, and so leaves the adjustment, tax and
   * shipping totals as they were.
   */
  lemma LockingKeepsTotals(before: seq<Adjustment>, after: seq<Adjustment>)
    requires LockedOptional(before, after)
    ensures forall i :: 0 <= i < |after| && !after[i].mandatory ==> after[i].locked
    ensures forall i :: 0 <= i < |after| ==>
      after[i].amount == before[i].amount && after[i].originator == before[i].originator
      && after[i].eligible == before[i].eligible
    ensures AdjustmentTotal(after) == AdjustmentTotal(before)
    ensures TaxTotal(after) == TaxTotal(before)
    ensures ShipTotal(after) == ShipTotal(before)
  {
    SumCorresponding(after, before, EligibleAmount, EligibleAmount);
    SumCorresponding(after, before, TaxWeight, TaxWeight);
    SumCorresponding(after, before, ShippingWeight, ShippingWeight);
  }

  /** The destroying half of `create_tax_charge!`: the adjustments that survive, in order. */
  method DestroyTaxAdjustments(adjs: seq<Adjustment>) returns (kept: seq<Adjustment>)
    ensures kept == Filter(adjs, IsNotTax)
  {
    kept := [];
    var i := 0;
    while i < |adjs|
      invariant 0 <= i <= |adjs|
      invariant kept == Filter(adjs[..i], IsNotTax)
    {
      FilterPrefix(adjs, i, IsNotTax);
      if IsNotTax(adjs[i]) {
        kept := kept + [adjs[i]];
      }
      i := i + 1;
    }
    assert adjs[..i] == adjs;
  }

  /** The creating half of `create_tax_charge!`: one adjustment per matched rate, in rate order. */
  method CreateTaxAdjustments(rates: seq<TaxRate>) returns (created: seq<Adjustment>)
    ensures created == TaxAdjustments(rates)
  {
    created := [];
    var j := 0;
    while j < |rates|
      invariant 0 <= j <= |rates|
      invariant created == TaxAdjustments(rates[..j])
    {
      assert rates[..j + 1][..j] == rates[..j];
      created := created + [TaxAdjustment(rates[j])];
      j := j + 1;
    }
    assert rates[..j] == rates;
  }

  /**
   * The part of an order a `next` step changes before reconciliation: its
   * state, adjustments, shipments, completion time, state events and calls.
   */
  datatype StepView = StepView(state: OrderState, adjustments: seq<Adjustment>, shipments: seq<Shipment>,
                               completedAt: Option<Timestamp>, stateEvents: seq<StateEvent>,
                               calls: seq<ExternalCall>)

  /**
   * What one `next` event does to an order, from `before` to `after`, given
   * what it reads of the order: whether checkout is allowed, whether payment
   * is required, how many payments there are and the shipping method.  From
   * the cart it needs line items; entering delivery recomputes tax; entering
   * payment creates the shipment, and an order with nothing to pay skips
   * payment; leaving confirm processes the payments and then finalizes the
   * order, unless a gateway error occurs and the configuration does not
   * allow checkout on gateway errors, in which case the order stays in
   * confirm.  A refused transition changes nothing but the gateway calls it
   * made.
   */
  ghost predicate StepEffects(before: StepView, after: StepView, checkoutAllowed: bool, paymentRequired: bool,
                              paymentCount: nat, shippingMethod: Option<ShippingMethod>, config: Config,
                              matchedRates: seq<TaxRate>, gatewayFailure: Option<nat>, now: Timestamp,
                              r: Outcome<TransitionError>)
  {
    var target := NextState(before.state, checkoutAllowed, paymentRequired);
    var blocked := before.state == Confirm && gatewayFailure.Some? && gatewayFailure.value < paymentCount
                   && !config.allowCheckoutOnGatewayError;
    var processed := if gatewayFailure.Some? && gatewayFailure.value < paymentCount then gatewayFailure.value + 1
                     else paymentCount;
    && (r.Pass? <==> target.Some? && !blocked)
    && (r.Pass? ==> after.state == target.value)
    && (blocked ==> r == Fail(GatewayError(gatewayFailure.value))
                    && after.calls == before.calls + PaymentProcessCalls(gatewayFailure.value + 1))
    && (before.state == Cart && !checkoutAllowed ==> r == Fail(CheckoutNotAllowed))
    && (before.state == Complete || before.state == Canceled ==> r == Fail(NoTransition(before.state)))
    && (r.Fail? ==> after.(calls := before.calls) == before)
    && (r.Fail? && before.state != Confirm ==> after.calls == before.calls)
    && (before.state != Address ==> after.adjustments == before.adjustments || after.state == Complete)
    && (r.Pass? && before.state == Address ==> after.adjustments == TaxCharged(before.adjustments, matchedRates))
    && (after.state == PaymentStep && before.state == Delivery ==>
          after.shipments == WithShipment(before.shipments, shippingMethod))
    && (!(after.state == PaymentStep && before.state == Delivery) ==> after.shipments == before.shipments)
    && (before.state != Confirm ==>
          after.calls == before.calls && after.completedAt == before.completedAt && after.stateEvents == before.stateEvents)
    && (r.Pass? && before.state == Confirm ==>
          && after.completedAt == Some(now)
          && LockedOptional(before.adjustments, after.adjustments)
          && after.stateEvents == before.stateEvents + [StateEvent("order", Cart, Complete)]
          && after.calls == before.calls + PaymentProcessCalls(processed)
                            + (if config.trackInventoryLevels then [AssignOpeningInventory] else []) + [SendConfirmEmail])
  }

  class Order {
    var state: OrderState
    var lineItems: seq<LineItem>
    var payments: seq<Payment>
    var adjustments: seq<Adjustment>
    var shipments: seq<Shipment>
    var inventoryUnits: seq<InventoryUnit>
    var shippingMethod: Option<ShippingMethod>

    var itemTotal: Money
    var adjustmentTotal: Money
    var paymentTotal: Money
    var total: Money
    var paymentState: Option<PaymentStatus>
    var shipmentState: Option<ShipmentStatus>
    var completedAt: Option<Timestamp>

    var stateEvents: seq<StateEvent>
    /** The calls the order has made to collaborators outside the model, oldest first. */
    var calls: seq<ExternalCall>

    /** A new, empty order in the cart state. */
    constructor ()
      ensures state == Cart && lineItems == [] && payments == [] && adjustments == []
      ensures shipments == [] && inventoryUnits == [] && shippingMethod == None
      ensures itemTotal == 0 && adjustmentTotal == 0 && paymentTotal == 0 && total == 0
      ensures paymentState == None && shipmentState == None && completedAt == None
      ensures stateEvents == [] && calls == []
    {
      state := Cart;
      lineItems, payments, adjustments := [], [], [];
      shipments, inventoryUnits, shippingMethod := [], [], None;
      itemTotal, adjustmentTotal, paymentTotal, total := 0, 0, 0, 0;
      paymentState, shipmentState, completedAt := None, None, None;
      stateEvents, calls := [], [];
    }

    /** The cached adjustment total agrees with the adjustments. */
    ghost predicate AdjustmentsReconciled()
      reads this`adjustmentTotal, this`adjustments
    {
      adjustmentTotal == AdjustmentTotal(adjustments)
    }

    /**
     * The totals and derived states agree with the collections: what a
     * reconciliation establishes.
     */
    ghost predicate Reconciled()
      reads this`itemTotal, this`lineItems, this`paymentTotal, this`payments, this`adjustmentTotal,
        this`adjustments, this`total, this`paymentState, this`shipmentState, this`shipments, this`inventoryUnits
    {
      && itemTotal == ItemTotal(lineItems)
      && paymentTotal == PaymentTotal(payments)
      && AdjustmentsReconciled()
      && total == itemTotal + adjustmentTotal
      && paymentState == Some(PaymentStateFor(total, paymentTotal, payments))
      && shipmentState == ShipmentStateFor(shipments, Aggregates.IsBackordered(inventoryUnits))
      && CheckoutPaymentSynced(payments, total)
    }

    /**
     * `outstanding_balance`: total less payment total, negative when the
     * customer overpaid.  On a reconciled order its sign agrees with the
     * payment state.
     */
    function OutstandingBalance(): (balance: Money)
      reads this
      ensures Reconciled() && paymentState == Some(Paid) ==> -MicrosPerCent < balance < MicrosPerCent
      ensures Reconciled() && paymentState == Some(CreditOwed) ==> balance < 0
      ensures Reconciled() && paymentState in {Some(BalanceDue), Some(PaymentStatus.Failed)} ==> balance > 0
    {
      PaymentStateMeaning(total, paymentTotal, payments);
      Reconciliation.OutstandingBalance(total, paymentTotal)
    }

    /**
     * `outstanding_balance?`: the balance is not zero.  A reconciled order
     * without an outstanding balance is paid.
     */
    function HasOutstandingBalance(): (owing: bool)
      reads this
      ensures owing <==> total != paymentTotal
      ensures Reconciled() && !owing ==> paymentState == Some(Paid)
    {
      PaymentStateMeaning(total, paymentTotal, payments);
      OutstandingBalance() != 0
    }

    /** `complete?` and `completed?`: the order has a completion time. */
    function IsComplete(): bool
      reads this
    {
      completedAt.Some?
    }

    /** `checkout_allowed?`: the order has line items. */
    function CheckoutAllowed(): bool
      reads this
    {
      |lineItems| > 0
    }

    /** The order has something to pay, so checkout passes through the payment step. */
    function PaymentRequired(): bool
      reads this
    {
      total > 0
    }

    /**
     * `can_cancel?`: the order is completed, not already canceled, and its
     * shipments are pending, ready or backordered, so nothing has shipped.
     */
    function CanCancel(): (b: bool)
      reads this
      ensures b ==> IsComplete() && state != Canceled
      ensures b ==> shipmentState.Some? && shipmentState.value != Shipped && shipmentState.value != Partial
      ensures IsComplete() && state != Canceled && shipmentState in {Some(Pending), Some(Backorder), Some(Ready)} ==> b
    {
      IsComplete() && state != Canceled && shipmentState in {Some(Pending), Some(Backorder), Some(Ready)}
    }

    /** `item_count`: never negative. */
    function ItemCount(): (n: int)
      reads this
      ensures n >= 0
    {
      Aggregates.ItemCount(lineItems)
    }

    /** `ship_total`: the adjustments' amounts, counting only those from shipping methods. */
    function ShipTotal(): (r: Money)
      reads this
      ensures r == Sum(adjustments, ShippingWeight)
    {
      Aggregates.ShipTotal(adjustments)
    }

    /** `tax_total`: the adjustments' amounts, counting only those from tax rates. */
    function TaxTotal(): (r: Money)
      reads this
      ensures r == Sum(adjustments, TaxWeight)
    {
      Aggregates.TaxTotal(adjustments)
    }

    /** `insufficient_stock_lines`: exactly the line items short of stock. */
    function InsufficientStockLines(): (r: seq<LineItem>)
      reads this
      ensures forall li :: li in r <==> li in lineItems && li.insufficientStock
    {
      Aggregates.InsufficientStockLines(lineItems)
    }

    /** `products`: each line item's product, in line-item order. */
    function Products(): (r: seq<string>)
      reads this
      ensures |r| == |lineItems|
      ensures forall i :: 0 <= i < |lineItems| ==> r[i] == lineItems[i].variant.product
    {
      Aggregates.Products(lineItems)
    }

    /** `backordered?`: some inventory unit of the order is backordered. */
    function IsBackordered(): (b: bool)
      reads this
      ensures b <==> exists i :: 0 <= i < |inventoryUnits| && inventoryUnits[i].state == Backordered
    {
      Aggregates.IsBackordered(inventoryUnits)
    }

    /** `update_totals`: recomputes the four totals from the collections. */
    method UpdateTotals()
      modifies this`itemTotal, this`paymentTotal, this`adjustmentTotal, this`total
      ensures itemTotal == ItemTotal(lineItems)
      ensures paymentTotal == PaymentTotal(payments)
      ensures adjustmentTotal == AdjustmentTotal(adjustments)
      ensures total == itemTotal + adjustmentTotal
    {
      paymentTotal := PaymentTotal(payments);
      itemTotal := ItemTotal(lineItems);
      adjustmentTotal := AdjustmentTotal(adjustments);
      total := itemTotal + adjustmentTotal;
    }

    /** Derives the payment state from the totals and the last payment. */
    method UpdatePaymentState()
      modifies this`paymentState
      ensures paymentState == Some(PaymentStateFor(total, paymentTotal, payments))
    {
      paymentState := Some(PaymentStateFor(total, paymentTotal, payments));
    }

    /** Derives the shipment state from the shipments and the backorder status. */
    method UpdateShipmentState()
      modifies this`shipmentState
      ensures shipmentState == ShipmentStateFor(shipments, IsBackordered())
    {
      shipmentState := ShipmentStateFor(shipments, IsBackordered());
    }

    /** Keeps a payment still in checkout at the order total. */
    method SyncCheckoutPaymentAmount()
      modifies this`payments
      ensures payments == SyncCheckoutPayment(old(payments), total)
    {
      if |payments| > 0 && payments[0].state == Checkout && payments[0].amount != total {
        payments := payments[0 := payments[0].(amount := total)];
      }
    }

    /** Calls each registered update hook once, in order. */
    method RunUpdateHooks(hooks: seq<string>)
      modifies this`calls
      ensures calls == old(calls) + HookCalls(hooks)
    {
      var i := 0;
      while i < |hooks|
        invariant 0 <= i <= |hooks|
        invariant calls == old(calls) + HookCalls(hooks[..i])
      {
        assert hooks[..i + 1][..i] == hooks[..i];
        calls := calls + [RunUpdateHook(hooks[i])];
        i := i + 1;
      }
      assert hooks[..i] == hooks;
    }

    /** Calls `update!` on every shipment, in order. */
    method UpdateShipments()
      modifies this`calls
      ensures calls == old(calls) + ShipmentUpdateCalls(|shipments|)
    {
      var i := 0;
      while i < |shipments|
        invariant 0 <= i <= |shipments|
        invariant calls == old(calls) + ShipmentUpdateCalls(i)
      {
        calls := calls + [UpdateShipment(i)];
        i := i + 1;
      }
    }

    /**
     * The recomputation part of `update!`: the totals (twice, as the source
     * does, around the derivation of the payment and shipment states), then a
     * checkout payment kept at the new total.  Afterwards the order is
     * reconciled; an order that already was keeps every field.
     */
    method Reconcile()
      modifies this`itemTotal, this`paymentTotal, this`adjustmentTotal, this`total
      modifies this`paymentState, this`shipmentState, this`payments
      ensures Reconciled()
      ensures payments == SyncCheckoutPayment(old(payments), total)
      ensures old(Reconciled()) ==>
        && payments == old(payments)
        && itemTotal == old(itemTotal) && paymentTotal == old(paymentTotal)
        && adjustmentTotal == old(adjustmentTotal) && total == old(total)
        && paymentState == old(paymentState) && shipmentState == old(shipmentState)
    {
      ghost var wasReconciled := Reconciled();
      UpdateTotals();
      UpdatePaymentState();
      UpdateShipmentState();
      UpdateTotals();
      ghost var before := payments;
      SyncCheckoutPaymentAmount();
      SyncKeepsPaymentState(before, total, paymentTotal);
      assert paymentTotal == PaymentTotal(payments);
      assert paymentState == Some(PaymentStateFor(total, paymentTotal, payments));
      if wasReconciled {
        assert total == old(total) && paymentTotal == old(paymentTotal);
        assert payments == old(payments);
        assert paymentState == old(paymentState) && shipmentState == old(shipmentState);
      }
    }

    /**
     * `update!`: reconciles the totals, the derived states and a checkout
     * payment, then runs the update hooks and updates every shipment.
     * Afterwards the order is reconciled; on an order that was already
     * reconciled it changes nothing but the calls it makes.
     */
    method Update(hooks: seq<string>)
      modifies this`itemTotal, this`paymentTotal, this`adjustmentTotal, this`total
      modifies this`paymentState, this`shipmentState, this`payments, this`calls
      ensures Reconciled()
      ensures payments == SyncCheckoutPayment(old(payments), total)
      ensures calls == old(calls) + HookCalls(hooks) + ShipmentUpdateCalls(|shipments|)
      ensures old(Reconciled()) ==>
        && payments == old(payments)
        && itemTotal == old(itemTotal) && paymentTotal == old(paymentTotal)
        && adjustmentTotal == old(adjustmentTotal) && total == old(total)
        && paymentState == old(paymentState) && shipmentState == old(shipmentState)
    {
      Reconcile();
      RunUpdateHooks(hooks);
      UpdateShipments();
    }

    /**
     * `create_tax_charge!`: destroys every tax adjustment, then creates one
     * adjustment per matched rate.
     */
    method CreateTaxCharge(rates: seq<TaxRate>)
      modifies this`adjustments
      ensures adjustments == TaxCharged(old(adjustments), rates)
    {
      var kept := DestroyTaxAdjustments(adjustments);
      var created := CreateTaxAdjustments(rates);
      adjustments := kept + created;
    }

    /** `create_shipment!`: gives the order's shipment its shipping method, creating the shipment if there is none. */
    method CreateShipment()
      modifies this`shipments
      ensures shipments == WithShipment(old(shipments), shippingMethod)
    {
      if |shipments| == 0 {
        shipments := [Shipment(ShipmentPending, shippingMethod)];
      } else {
        shipments := shipments[0 := shipments[0].(shippingMethod := shippingMethod)];
      }
    }

    /**
     * `process_payments!`: processes each payment in turn through the
     * gateway.  `gatewayFailure` names the payment whose processing raises a
     * gateway error, if any; processing stops there and reports it.
     */
    method ProcessPayments(gatewayFailure: Option<nat>) returns (failed: Option<nat>)
      modifies this`calls
      ensures failed == if gatewayFailure.Some? && gatewayFailure.value < |payments| then gatewayFailure else None
      ensures calls == old(calls) + PaymentProcessCalls(if failed.Some? then failed.value + 1 else |payments|)
    {
      var i := 0;
      while i < |payments|
        invariant 0 <= i <= |payments|
        invariant gatewayFailure.Some? ==> gatewayFailure.value >= i
        invariant calls == old(calls) + PaymentProcessCalls(i)
      {
        calls := calls + [ProcessPayment(i)];
        if gatewayFailure == Some(i) {
          return Some(i);
        }
        i := i + 1;
      }
      return None;
    }

    /** Locks every optional adjustment (`adjustments.optional`), one at a time. */
    method LockOptionalAdjustments()
      modifies this`adjustments
      ensures LockedOptional(old(adjustments), adjustments)
      ensures old(Reconciled()) ==> Reconciled()
    {
      var i := 0;
      while i < |adjustments|
        invariant 0 <= i <= |adjustments| == |old(adjustments)|
        invariant forall k :: 0 <= k < i ==> adjustments[k] == LockIfOptional(old(adjustments)[k])
        invariant forall k :: i <= k < |adjustments| ==> adjustments[k] == old(adjustments)[k]
      {
        if !adjustments[i].mandatory {
          adjustments := adjustments[i := adjustments[i].(locked := true)];
        }
        i := i + 1;
      }
      LockingKeepsTotals(old(adjustments), adjustments);
      assert old(AdjustmentsReconciled()) ==> AdjustmentsReconciled();
    }

    /**
     * `finalize!`: records the completion time, assigns the opening
     * inventory when inventory is tracked, locks the optional adjustments,
     * sends the confirmation e-mail and logs the state event.  A reconciled
     * order stays reconciled.
     */
    method Finalize(now: Timestamp, trackInventoryLevels: bool)
      modifies this`completedAt, this`calls, this`adjustments, this`stateEvents
      ensures completedAt == Some(now)
      ensures calls == old(calls) + (if trackInventoryLevels then [AssignOpeningInventory] else []) + [SendConfirmEmail]
      ensures LockedOptional(old(adjustments), adjustments)
      ensures stateEvents == old(stateEvents) + [StateEvent("order", Cart, Complete)]
      ensures old(Reconciled()) ==> Reconciled()
    {
      ghost var wasReconciled := Reconciled();
      completedAt := Some(now);
      var inventoryCalls := if trackInventoryLevels then [AssignOpeningInventory] else [];
      LockOptionalAdjustments();
      assert wasReconciled ==> Reconciled();
      calls := calls + inventoryCalls + [SendConfirmEmail];
      stateEvents := stateEvents + [StateEvent("order", Cart, Complete)];
    }

    /** The part of the order a `next` step changes before reconciliation. */
    function View(): StepView
      reads this`state, this`adjustments, this`shipments, this`completedAt, this`stateEvents, this`calls
    {
      StepView(state, adjustments, shipments, completedAt, stateEvents, calls)
    }

    /**
     * Leaving confirm: the payments are processed, and unless a gateway error
     * occurs that the configuration does not let through, the order is
     * completed and finalized.  No tax is charged here, so the step is stated
     * for no matched tax rates.
     */
    method CompleteCheckout(config: Config, gatewayFailure: Option<nat>, now: Timestamp) returns (r: Outcome<TransitionError>)
      requires state == Confirm
      modifies this`state, this`adjustments, this`completedAt, this`calls, this`stateEvents
      ensures StepEffects(old(View()), View(), old(CheckoutAllowed()), old(PaymentRequired()), old(|payments|),
                          shippingMethod, config, [], gatewayFailure, now, r)
    {
      var failed := ProcessPayments(gatewayFailure);
      if failed.Some? && !config.allowCheckoutOnGatewayError {
        return Fail(GatewayError(failed.value));
      }
      state := Complete;
      Finalize(now, config.trackInventoryLevels);
      r := Pass;
    }

    /**
     * The transition of the `next` event with its callbacks (`next!` raises
     * where this returns a failure): the step `StepEffects` describes,
     * before the order is reconciled.
     */
    method Transition(config: Config, matchedRates: seq<TaxRate>, gatewayFailure: Option<nat>, now: Timestamp)
      returns (r: Outcome<TransitionError>)
      modifies this`state, this`adjustments, this`shipments, this`completedAt, this`calls, this`stateEvents
      ensures StepEffects(old(View()), View(), old(CheckoutAllowed()), old(PaymentRequired()), old(|payments|),
                          shippingMethod, config, matchedRates, gatewayFailure, now, r)
    {
      match state
      case Cart =>
        if !CheckoutAllowed() {
          return Fail(CheckoutNotAllowed);
        }
        state := Address;
        r := Pass;
      case Address =>
        state := Delivery;
        CreateTaxCharge(matchedRates);
        r := Pass;
      case Delivery =>
        if PaymentRequired() {
          state := PaymentStep;
          CreateShipment();
        } else {
          state := Confirm;
        }
        r := Pass;
      case PaymentStep =>
        state := Confirm;
        r := Pass;
      case Confirm =>
        r := CompleteCheckout(config, gatewayFailure, now);
      case Complete =>
        r := Fail(NoTransition(Complete));
      case Canceled =>
        r := Fail(NoTransition(Canceled));
    }

    /**
     * The `next` event: the transition with its callbacks, then, when it
     * passes, the reconciliation of `update!`, so that the totals, the
     * derived states and a checkout payment agree with the adjustments and
     * shipments the step changed.  A refused `next` reconciles nothing.
     */
    method Next(config: Config, matchedRates: seq<TaxRate>, gatewayFailure: Option<nat>, now: Timestamp)
      returns (r: Outcome<TransitionError>)
      modifies this`state, this`adjustments, this`shipments, this`completedAt, this`calls, this`stateEvents
      modifies this`itemTotal, this`paymentTotal, this`adjustmentTotal, this`total
      modifies this`paymentState, this`shipmentState, this`payments
      ensures StepEffects(old(View()), View(), old(CheckoutAllowed()), old(PaymentRequired()), old(|payments|),
                          shippingMethod, config, matchedRates, gatewayFailure, now, r)
      ensures r.Pass? ==> Reconciled() && payments == SyncCheckoutPayment(old(payments), total)
      ensures r.Fail? ==>
        && payments == old(payments)
        && itemTotal == old(itemTotal) && paymentTotal == old(paymentTotal)
        && adjustmentTotal == old(adjustmentTotal) && total == old(total)
        && paymentState == old(paymentState) && shipmentState == old(shipmentState)
    {
      r := Transition(config, matchedRates, gatewayFailure, now);
      if r.Pass? {
        Reconcile();
      }
    }

    /**
     * The `cancel` event: allowed exactly when `can_cancel?` holds; it moves
     * the order to canceled and sends the cancellation e-mail.  Either way the
     * order cannot be canceled again afterwards.
     */
    method Cancel() returns (r: Outcome<TransitionError>)
      modifies this`state, this`calls
      ensures r.Pass? <==> old(CanCancel())
      ensures r.Pass? ==> state == Canceled && calls == old(calls) + [SendCancelEmail]
      ensures r.Fail? ==> r == Fail(CannotCancel) && state == old(state) && calls == old(calls)
      ensures !CanCancel()
    {
      if !CanCancel() {
        return Fail(CannotCancel);
      }
      state := Canceled;
      calls := calls + [SendCancelEmail];
      r := Pass;
    }
  }
}
