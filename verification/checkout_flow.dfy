/**
 * The transition table of the `next` event of the order's checkout state
 * machine: cart, address, delivery, payment, confirm, complete.
 */
module CheckoutFlow {
  import opened Wrappers
  import opened Entities

  /** How far through checkout a state is. */
  function Progress(s: OrderState): nat
  {
    match s
    case Cart => 0
    case Address => 1
    case Delivery => 2
    case PaymentStep => 3
    case Confirm => 4
    case Complete => 5
    case Canceled => 6
  }

  /**
   * Where `next` leads from `s`, or None when it is refused.  Leaving the
   * cart needs at least one line item; an order that needs no payment goes
   * from delivery straight to confirm; complete and canceled orders have no
   * next state.
   */
  function NextState(s: OrderState, checkoutAllowed: bool, paymentRequired: bool): (t: Option<OrderState>)
    ensures t.Some? ==> Progress(s) < Progress(t.value)
  {
    match s
    case Cart => if checkoutAllowed then Some(Address) else None
    case Address => Some(Delivery)
    case Delivery => if paymentRequired then Some(PaymentStep) else Some(Confirm)
    case PaymentStep => Some(Confirm)
    case Confirm => Some(Complete)
    case Complete => None
    case Canceled => None
  }

  /**
   * `next` only ever moves forward, by one step or (skipping payment) two,
   * never reaches canceled, reaches complete only from confirm, and is
   * refused exactly for an empty cart and for finished orders.
   */
  lemma NextStateMeaning(s: OrderState, checkoutAllowed: bool, paymentRequired: bool)
    ensures var t := NextState(s, checkoutAllowed, paymentRequired);
      && (t.Some? ==> Progress(s) < Progress(t.value) <= Progress(s) + 2 && t.value != Canceled)
      && (t.Some? && Progress(t.value) == Progress(s) + 2 <==> s == Delivery && !paymentRequired)
      && (t == Some(Complete) <==> s == Confirm)
      && (t == Some(PaymentStep) <==> s == Delivery && paymentRequired)
      && (t.None? <==> (s == Cart && !checkoutAllowed) || s == Complete || s == Canceled)
  {
  }

  /** Applies `next` `n` times, stopping at the first refusal. */
  function Advance(s: OrderState, n: nat, checkoutAllowed: bool, paymentRequired: bool): Option<OrderState>
    decreases n
  {
    if n == 0 then Some(s)
    else match NextState(s, checkoutAllowed, paymentRequired)
      case None => None
      case Some(t) => Advance(t, n - 1, checkoutAllowed, paymentRequired)
  }

  /**
   * Every successful run of `n` steps makes at least `n` and at most `2 * n`
   * steps of progress.
   */
  lemma {:induction false} AdvanceProgress(s: OrderState, n: nat, checkoutAllowed: bool, paymentRequired: bool)
    requires Advance(s, n, checkoutAllowed, paymentRequired).Some?
    ensures Progress(s) + n <= Progress(Advance(s, n, checkoutAllowed, paymentRequired).value) <= Progress(s) + 2 * n
    decreases n
  {
    if n > 0 {
      var t := NextState(s, checkoutAllowed, paymentRequired).value;
      NextStateMeaning(s, checkoutAllowed, paymentRequired);
      AdvanceProgress(t, n - 1, checkoutAllowed, paymentRequired);
    }
  }

  /**
   * From a cart with items, checkout is complete after five steps, or after
   * four when no payment is required.
   */
  lemma CheckoutCompletes(paymentRequired: bool)
    ensures Advance(Cart, if paymentRequired then 5 else 4, true, paymentRequired) == Some(Complete)
  {
    assert Advance(Complete, 0, true, paymentRequired) == Some(Complete);
    assert Advance(Confirm, 1, true, paymentRequired) == Some(Complete);
    assert Advance(PaymentStep, 2, true, paymentRequired) == Some(Complete);
    assert Advance(Delivery, if paymentRequired then 3 else 2, true, paymentRequired) == Some(Complete);
    assert Advance(Address, if paymentRequired then 4 else 3, true, paymentRequired) == Some(Complete);
  }
}
