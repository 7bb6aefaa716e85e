/**
 * The derivations `update!` performs: the order's payment state from its
 * total, its payment total and its last payment; its shipment state from its
 * shipments and whether anything is backordered; and the synchronisation of
 * a checkout payment's amount with the order total.
 */
module Reconciliation {
  import opened Wrappers
  import opened Money
  import opened Seqs
  import opened Entities
  import opened Aggregates

  /** `outstanding_balance`: what the customer still owes (negative when overpaid). */
  function OutstandingBalance(total: Money, paymentTotal: Money): (balance: Money)
    ensures balance > 0 <==> paymentTotal < total
    ensures balance == 0 <==> paymentTotal == total
  {
    total - paymentTotal
  }

  /** The last payment taken for the order failed. */
  predicate LastPaymentFailed(payments: seq<Payment>)
  {
    |payments| > 0 && payments[|payments| - 1].state == PaymentFailed
  }

  /**
   * `payment_state`: totals that agree to the cent are paid; more paid than
   * due is credit owed; less paid is a failure when the last payment failed
   * and a balance due otherwise.
   */
  function PaymentStateFor(total: Money, paymentTotal: Money, payments: seq<Payment>): (s: PaymentStatus)
    ensures s == Paid || s == CreditOwed <==> RoundToCents(paymentTotal) >= RoundToCents(total)
  {
    var due, paid := RoundToCents(total), RoundToCents(paymentTotal);
    if paid < due then
      if LastPaymentFailed(payments) then PaymentStatus.Failed else BalanceDue
    else if paid > due then CreditOwed
    else Paid
  }

  /**
   * What each payment state says about the outstanding balance: a paid order
   * owes less than a cent either way, and in particular an order without an
   * outstanding balance is paid; credit is owed only when the customer paid
   * more than the total; a balance is due or a payment failed only when the
   * customer paid less.  A failed state always means the last payment failed.
   * Conversely, each state is chosen exactly in its own case: paid when the
   * two totals agree to the cent, credit owed when the payments round higher,
   * and, when they round lower, failed exactly when the last payment failed.
   * A balance of a whole cent or more either way is never paid.
   */
  lemma PaymentStateMeaning(total: Money, paymentTotal: Money, payments: seq<Payment>)
    ensures var s, balance := PaymentStateFor(total, paymentTotal, payments), OutstandingBalance(total, paymentTotal);
      && (s == Paid ==> -MicrosPerCent < balance < MicrosPerCent)
      && (balance == 0 ==> s == Paid)
      && (s == CreditOwed ==> balance < 0)
      && (s == BalanceDue || s == PaymentStatus.Failed ==> balance > 0)
      && (s == PaymentStatus.Failed ==> LastPaymentFailed(payments))
      && (s == BalanceDue ==> !LastPaymentFailed(payments))
      && (s == Paid <==> RoundToCents(total) == RoundToCents(paymentTotal))
      && (s == CreditOwed <==> RoundToCents(paymentTotal) > RoundToCents(total))
      && (RoundToCents(paymentTotal) < RoundToCents(total) ==> (s == PaymentStatus.Failed <==> LastPaymentFailed(payments)))
      && (balance <= -MicrosPerCent ==> s == CreditOwed)
      && (balance >= MicrosPerCent ==> s == BalanceDue || s == PaymentStatus.Failed)
  {
    var s := PaymentStateFor(total, paymentTotal, payments);
    if s == Paid {
      SameCentsWithinOneCent(total, paymentTotal);
    }
    if paymentTotal <= total {
      RoundMonotone(paymentTotal, total);
    }
    if total <= paymentTotal {
      RoundMonotone(total, paymentTotal);
    }
    if total + MicrosPerCent <= paymentTotal {
      CentApartRoundsApart(total, paymentTotal);
    }
    if paymentTotal + MicrosPerCent <= total {
      CentApartRoundsApart(paymentTotal, total);
    }
  }

  /** The number of shipments in state `st`. */
  function CountInState(shipments: seq<Shipment>, st: ShipmentState): (n: nat)
    ensures n <= |shipments|
  {
    if |shipments| == 0 then 0
    else CountInState(shipments[..|shipments| - 1], st) + (if shipments[|shipments| - 1].state == st then 1 else 0)
  }

  /** Every shipment is in state `st`. */
  predicate AllIn(shipments: seq<Shipment>, st: ShipmentState)
  {
    forall i :: 0 <= i < |shipments| ==> shipments[i].state == st
  }

  /** Some shipment is in state `st`. */
  predicate SomeIn(shipments: seq<Shipment>, st: ShipmentState)
  {
    exists i :: 0 <= i < |shipments| && shipments[i].state == st
  }

  /** Counting the shipments in a state gives all of them exactly when all are in it. */
  lemma {:induction false} CountAllIn(shipments: seq<Shipment>, st: ShipmentState)
    ensures CountInState(shipments, st) == |shipments| <==> AllIn(shipments, st)
  {
    if |shipments| > 0 {
      var init := shipments[..|shipments| - 1];
      CountAllIn(init, st);
      assert AllIn(shipments, st) ==> AllIn(init, st);
    }
  }

  /**
   * `shipment_state`: none without shipments; shipped when every shipment
   * shipped; otherwise backorder when something is backordered; then ready or
   * pending when every shipment is; anything else is partial.
   */
  function ShipmentStateFor(shipments: seq<Shipment>, backordered: bool): (r: Option<ShipmentStatus>)
    ensures r.None? <==> |shipments| == 0
    ensures r == Some(Backorder) ==> backordered
  {
    var n := |shipments|;
    if n == 0 then None
    else if CountInState(shipments, ShipmentShipped) == n then Some(Shipped)
    else if backordered then Some(Backorder)
    else if CountInState(shipments, ShipmentReady) == n then Some(Ready)
    else if CountInState(shipments, ShipmentPending) == n then Some(Pending)
    else Some(Partial)
  }

  /**
   * The shipment state, stated over the shipments themselves: each value
   * holds exactly in its own situation, and an order with some but not all
   * shipments shipped is partial, or backorder when something is backordered.
   */
  lemma ShipmentStateMeaning(shipments: seq<Shipment>, backordered: bool)
    ensures var s := ShipmentStateFor(shipments, backordered);
      && (s == None <==> |shipments| == 0)
      && (s == Some(Shipped) <==> |shipments| > 0 && AllIn(shipments, ShipmentShipped))
      && (s == Some(Backorder) <==> |shipments| > 0 && !AllIn(shipments, ShipmentShipped) && backordered)
      && (s == Some(Ready) <==> |shipments| > 0 && !backordered && AllIn(shipments, ShipmentReady))
      && (s == Some(Pending) <==> |shipments| > 0 && !backordered && AllIn(shipments, ShipmentPending))
      && (s == Some(Partial) <==>
            |shipments| > 0 && !backordered && !AllIn(shipments, ShipmentShipped)
            && !AllIn(shipments, ShipmentReady) && !AllIn(shipments, ShipmentPending))
      && (SomeIn(shipments, ShipmentShipped) && !AllIn(shipments, ShipmentShipped) ==>
            s == Some(if backordered then Backorder else Partial))
  {
    CountAllIn(shipments, ShipmentShipped);
    CountAllIn(shipments, ShipmentReady);
    CountAllIn(shipments, ShipmentPending);
  }

  /** The order's current payment, if it is still in checkout, carries the order total. */
  predicate CheckoutPaymentSynced(payments: seq<Payment>, total: Money)
  {
    |payments| > 0 && payments[0].state == Checkout ==> payments[0].amount == total
  }

  /**
   * Sets the amount of the order's current (first) payment to the order total
   * when that payment is still in checkout; every other payment and every
   * payment state is left alone.
   */
  function SyncCheckoutPayment(payments: seq<Payment>, total: Money): (r: seq<Payment>)
    ensures |r| == |payments|
    ensures forall i :: 0 <= i < |r| ==> r[i].state == payments[i].state
    ensures forall i :: 0 < i < |r| ==> r[i] == payments[i]
    ensures CheckoutPaymentSynced(r, total)
    ensures CheckoutPaymentSynced(payments, total) ==> r == payments
  {
    if |payments| > 0 && payments[0].state == Checkout && payments[0].amount != total
    then payments[0 := payments[0].(amount := total)]
    else payments
  }

  /**
   * Synchronising the checkout payment changes neither the payment total
   * (a checkout payment is not completed) nor the payment state.
   */
  lemma SyncKeepsPaymentState(payments: seq<Payment>, total: Money, paymentTotal: Money)
    ensures PaymentTotal(SyncCheckoutPayment(payments, total)) == PaymentTotal(payments)
    ensures PaymentStateFor(total, paymentTotal, SyncCheckoutPayment(payments, total))
         == PaymentStateFor(total, paymentTotal, payments)
  {
    var synced := SyncCheckoutPayment(payments, total);
    SumCorresponding(synced, payments, CompletedAmount, CompletedAmount);
  }
}
