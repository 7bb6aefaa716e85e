/**
 * The entities an order owns and the values its state machine and
 * reconciliation talk about.  Everything here is a value; the order itself,
 * whose fields change in place, is the class in module Orders.
 */
module Entities {
  import opened Wrappers
  import opened Money

  /** A point in time, as supplied by the caller's clock. */
  type Timestamp = int

  /** The primary checkout state of an order. */
  datatype OrderState = Cart | Address | Delivery | PaymentStep | Confirm | Complete | Canceled

  /** The order's derived `payment_state` (absent until the first reconciliation). */
  datatype PaymentStatus = BalanceDue | Paid | CreditOwed | Failed

  /** The order's derived `shipment_state`, when it has shipments. */
  datatype ShipmentStatus = Pending | Ready | Partial | Backorder | Shipped

  datatype Variant = Variant(id: nat, product: string)

  /**
   * A line of the cart.  Whether its variant is short of stock is decided by
   * the inventory subsystem and arrives here as a flag.
   */
  datatype LineItem = LineItem(variant: Variant, quantity: nat, price: Money, insufficientStock: bool)
  {
    /** The line's amount: quantity times unit price. */
    function Amount(): Money { quantity * price }
  }

  /** The state of a single payment. */
  datatype PaymentState = Checkout | Processing | PaymentPending | Completed | PaymentFailed | Void

  datatype Payment = Payment(amount: Money, state: PaymentState)

  /** The state of a single shipment. */
  datatype ShipmentState = ShipmentPending | ShipmentReady | ShipmentShipped | ShipmentBackorder

  datatype ShippingMethod = ShippingMethod(id: nat, name: string)

  datatype Shipment = Shipment(state: ShipmentState, shippingMethod: Option<ShippingMethod>)

  /** The state of an inventory unit attached to the order. */
  datatype UnitState = OnHand | Backordered | UnitShipped | Returned

  datatype InventoryUnit = InventoryUnit(variant: Variant, state: UnitState)

  /** What an adjustment was created by (its originator). */
  datatype Originator = TaxRateOrigin(rateId: nat) | ShippingOrigin(methodId: nat) | PromotionOrigin(promotionId: nat)

  /**
   * A charge or credit on the order.  Only eligible adjustments count towards
   * the adjustment total; optional (non-mandatory) ones are locked when the
   * order is finalized.
   */
  datatype Adjustment = Adjustment(
    amount: Money,
    labelText: string,
    originator: Originator,
    eligible: bool,
    mandatory: bool,
    locked: bool)

  /**
   * A tax rate that matched the order's address.  `amount` is the rate in
   * ten-thousandths (0.05 is 500); `description` is its calculator's
   * description; `charge` is what its calculator computed for this order.
   */
  datatype TaxRate = TaxRate(id: nat, amount: nat, description: string, charge: Money)

  /** An audit record of a state transition. */
  datatype StateEvent = StateEvent(name: string, previousState: OrderState, nextState: OrderState)

  /**
   * The calls the order makes into collaborators whose behaviour is not part
   * of the model: update hooks, a shipment's own update, the payment gateway,
   * the inventory subsystem and the mailer.
   */
  datatype ExternalCall =
    | RunUpdateHook(hook: string)
    | UpdateShipment(shipment: nat)
    | ProcessPayment(payment: nat)
    | AssignOpeningInventory
    | SendConfirmEmail
    | SendCancelEmail

  /** The deployment flags the order's operations consult. */
  datatype Config = Config(allowCheckoutOnGatewayError: bool, trackInventoryLevels: bool)

  /** Why a transition was refused. */
  datatype TransitionError =
    | CheckoutNotAllowed
    | NoTransition(from: OrderState)
    | GatewayError(payment: nat)
    | CannotCancel
}
