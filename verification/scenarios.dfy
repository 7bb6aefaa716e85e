/**
 * The worked examples of the order's behaviour, stated over the model: the
 * totals of a small order, the payment and shipment states of typical
 * orders, the outstanding balance, the shipping-rate list and the tax
 * labels.  Amounts are in millionths of a unit, so 1 unit is 1000000.
 */
module Scenarios {
  import opened Wrappers
  import opened Money
  import opened Seqs
  import opened Entities
  import opened Aggregates
  import opened Reconciliation
  import opened ShippingRates
  import opened TaxCharge
  import opened CheckoutFlow

  /** Millionths in one whole unit of the currency. */
  const Unit: int := 100 * MicrosPerCent

  const Shirt: Variant := Variant(1, "product1")
  const Mug: Variant := Variant(2, "product2")

  function Promotion(amount: Money, eligible: bool): Adjustment
  {
    Adjustment(amount, "Promotion", PromotionOrigin(1), eligible, false, false)
  }

  /** A sum over two elements. */
  lemma SumOfPair<T>(a: T, b: T, f: T -> int)
    ensures Sum([a, b], f) == f(a) + f(b)
  {
    assert [a, b][..1] == [a] && [a][..0] == [];
    assert Sum([a], f) == Sum([a][..0], f) + f(a) == f(a);
  }

  /** A sum over three elements. */
  lemma SumOfTriple<T>(a: T, b: T, c: T, f: T -> int)
    ensures Sum([a, b, c], f) == f(a) + f(b) + f(c)
  {
    assert [a, b, c][..2] == [a, b];
    SumOfPair(a, b, f);
  }

  /**
   * Line items of 100 and 50 make an item total of 150; completed payments
   * of 100 and -10 a payment total of 90; adjustments of 10, 5 and an
   * ineligible -2 an adjustment total of 15; and the order total is 165.
   */
  lemma TotalsExample()
    ensures ItemTotal([LineItem(Shirt, 1, 100 * Unit, false), LineItem(Mug, 1, 50 * Unit, false)]) == 150 * Unit
    ensures PaymentTotal([Payment(100 * Unit, Completed), Payment(-10 * Unit, Completed)]) == 90 * Unit
    ensures AdjustmentTotal([Promotion(10 * Unit, true), Promotion(5 * Unit, true), Promotion(-2 * Unit, false)]) == 15 * Unit
    ensures ItemTotal([LineItem(Shirt, 1, 100 * Unit, false), LineItem(Mug, 1, 50 * Unit, false)])
            + AdjustmentTotal([Promotion(10 * Unit, true), Promotion(5 * Unit, true), Promotion(-2 * Unit, false)])
            == 165 * Unit
  {
    SumOfPair(LineItem(Shirt, 1, 100 * Unit, false), LineItem(Mug, 1, 50 * Unit, false), LineAmount);
    SumOfPair(Payment(100 * Unit, Completed), Payment(-10 * Unit, Completed), CompletedAmount);
    SumOfTriple(Promotion(10 * Unit, true), Promotion(5 * Unit, true), Promotion(-2 * Unit, false), EligibleAmount);
  }

  /** Two line items of quantities 2 and 1 make an item count of 3, and their products come back in order. */
  lemma ItemCountAndProductsExample()
    ensures ItemCount([LineItem(Shirt, 2, Unit, false), LineItem(Mug, 1, Unit, false)]) == 3
    ensures Products([LineItem(Shirt, 2, Unit, false), LineItem(Mug, 1, Unit, false)]) == ["product1", "product2"]
  {
    SumOfPair(LineItem(Shirt, 2, Unit, false), LineItem(Mug, 1, Unit, false), Quantity);
    var items := [LineItem(Shirt, 2, Unit, false), LineItem(Mug, 1, Unit, false)];
    assert items[..1] == [items[0]] && items[..1][..0] == [];
  }

  /**
   * A total of 100.01 against a payment total of 100.012343 is paid; 100
   * against 50 is a balance due, or failed when the last payment failed; 100
   * against 150 is credit owed.
   */
  lemma PaymentStateExamples()
    ensures PaymentStateFor(100 * Unit + MicrosPerCent, 100 * Unit + 12343, []) == Paid
    ensures PaymentStateFor(100 * Unit, 50 * Unit, [Payment(50 * Unit, PaymentPending)]) == BalanceDue
    ensures PaymentStateFor(100 * Unit, 50 * Unit, [Payment(50 * Unit, PaymentFailed)]) == PaymentStatus.Failed
    ensures PaymentStateFor(100 * Unit, 150 * Unit, []) == CreditOwed
  {
    RoundWholeCents(100 * Unit / MicrosPerCent);
    RoundWholeCents(50 * Unit / MicrosPerCent);
    RoundWholeCents(150 * Unit / MicrosPerCent);
  }

  /**
   * Two shipments: both shipped is shipped; one shipped with backordered
   * units is backorder; one shipped and one ready is partial; both ready is
   * ready; both pending is pending; no shipments leaves the state unset.
   */
  lemma ShipmentStateExamples()
    ensures ShipmentStateFor([Shipment(ShipmentShipped, None), Shipment(ShipmentShipped, None)], false) == Some(Shipped)
    ensures ShipmentStateFor([Shipment(ShipmentShipped, None), Shipment(ShipmentPending, None)], true) == Some(Backorder)
    ensures ShipmentStateFor([Shipment(ShipmentShipped, None), Shipment(ShipmentReady, None)], false) == Some(Partial)
    ensures ShipmentStateFor([Shipment(ShipmentReady, None), Shipment(ShipmentReady, None)], false) == Some(Ready)
    ensures ShipmentStateFor([Shipment(ShipmentPending, None), Shipment(ShipmentPending, None)], false) == Some(Pending)
    ensures ShipmentStateFor([], false) == None
  {
  }

  /** 30.30 less 20.20 leaves 10.10 outstanding; 8.20 less 10.20 leaves -2.00. */
  lemma OutstandingBalanceExamples()
    ensures OutstandingBalance(3030 * MicrosPerCent, 2020 * MicrosPerCent) == 1010 * MicrosPerCent
    ensures OutstandingBalance(820 * MicrosPerCent, 1020 * MicrosPerCent) == -2 * Unit
  {
  }

  /** Shipping and tax adjustments of 5 and 10 total 15 each; a promotion counts towards neither. */
  lemma ShipAndTaxTotalExample()
    ensures ShipTotal([Adjustment(5 * Unit, "Shipping", ShippingOrigin(1), true, true, false),
                       Adjustment(10 * Unit, "Shipping", ShippingOrigin(2), true, true, false),
                       Promotion(-3 * Unit, true)]) == 15 * Unit
    ensures TaxTotal([Adjustment(5 * Unit, "Tax", TaxRateOrigin(1), true, true, false),
                      Adjustment(10 * Unit, "Tax", TaxRateOrigin(2), true, true, false),
                      Promotion(-3 * Unit, true)]) == 15 * Unit
  {
    var shipping := [Adjustment(5 * Unit, "Shipping", ShippingOrigin(1), true, true, false),
                     Adjustment(10 * Unit, "Shipping", ShippingOrigin(2), true, true, false),
                     Promotion(-3 * Unit, true)];
    FilterAppend(shipping[..2], [shipping[2]], IsShipping);
    FilterAll(shipping[..2], IsShipping);
    FilterNone([shipping[2]], IsShipping);
    assert shipping[..2] + [shipping[2]] == shipping;
    assert shipping[..2] == [shipping[0], shipping[1]];
    SumOfPair(shipping[0], shipping[1], AdjustmentAmount);
    var tax := [Adjustment(5 * Unit, "Tax", TaxRateOrigin(1), true, true, false),
                Adjustment(10 * Unit, "Tax", TaxRateOrigin(2), true, true, false),
                Promotion(-3 * Unit, true)];
    FilterAppend(tax[..2], [tax[2]], IsTax);
    FilterAll(tax[..2], IsTax);
    FilterNone([tax[2]], IsTax);
    assert tax[..2] + [tax[2]] == tax;
    assert tax[..2] == [tax[0], tax[1]];
    SumOfPair(tax[0], tax[1], AdjustmentAmount);
  }

  const AirShipping: ShippingMethod := ShippingMethod(1, "Air Shipping")
  const GroundShipping: ShippingMethod := ShippingMethod(2, "Ground Shipping")

  const AirRate: Rate := Rate(AirShipping, 10 * Unit, "Air Shipping", 1)
  const GroundRate: Rate := Rate(GroundShipping, 0, "Ground Shipping", 2)

  /** Both methods priced, air first: both options, in quote order. */
  lemma AirGroundPriced()
    ensures Priced([Quote(AirShipping, Some(10 * Unit)), Quote(GroundShipping, Some(0))]) == [AirRate, GroundRate]
  {
    var quotes := [Quote(AirShipping, Some(10 * Unit)), Quote(GroundShipping, Some(0))];
    assert quotes[..1] == [quotes[0]] && quotes[..1][..0] == [];
    assert Priced([quotes[0]]) == [AirRate];
  }

  /** Sorting air then ground by cost puts ground first. */
  lemma AirGroundSorted()
    ensures SortByCost([AirRate, GroundRate]) == [GroundRate, AirRate]
  {
    assert [AirRate, GroundRate][1..] == [GroundRate] && [GroundRate][1..] == [];
    assert SortByCost([GroundRate]) == [GroundRate];
  }

  /** Air shipping at 10.0 and ground shipping at 0.0 come back cheapest first. */
  lemma RateHashSortedExample()
    ensures RateHash([Quote(AirShipping, Some(10 * Unit)), Quote(GroundShipping, Some(0))])
            == [Rate(GroundShipping, 0, "Ground Shipping", 2), Rate(AirShipping, 10 * Unit, "Air Shipping", 1)]
  {
    AirGroundPriced();
    AirGroundSorted();
  }

  /** When air shipping has no price it is dropped, leaving ground shipping alone. */
  lemma RateHashUnpricedExample()
    ensures RateHash([Quote(AirShipping, None), Quote(GroundShipping, Some(0))])
            == [Rate(GroundShipping, 0, "Ground Shipping", 2)]
  {
    var ground := Rate(GroundShipping, 0, "Ground Shipping", 2);
    var quotes := [Quote(AirShipping, None), Quote(GroundShipping, Some(0))];
    assert quotes[..1] == [quotes[0]] && quotes[..1][..0] == [];
    assert Priced(quotes) == [ground];
    assert [ground][1..] == [];
    assert SortByCost([ground]) == [ground];
  }

  /** Rates of 0.05 and 0.15 described as "Money for the man" label their adjustments with 5.0% and 15.0%. */
  lemma TaxLabelExamples()
    ensures TaxLabel(TaxRate(1, 500, "Money for the man", 3 * Unit)) == "Money for the man 5.0%"
    ensures TaxLabel(TaxRate(2, 1500, "Money for the man", 3 * Unit)) == "Money for the man 15.0%"
  {
  }

  /**
   * Recomputing tax over an old tax charge and two matched rates leaves
   * exactly the two new tax adjustments; with no matching rate any more, the
   * old charge is still removed.
   */
  lemma TaxChargeExamples()
    ensures var old_ := [Adjustment(5 * Unit, "Tax", TaxRateOrigin(9), true, true, false)];
            var rates := [TaxRate(1, 500, "Money for the man", 3 * Unit), TaxRate(2, 1500, "Money for the man", 3 * Unit)];
            && |Filter(TaxCharged(old_, rates), IsTax)| == 2
            && TaxCharged(old_, []) == []
  {
  }

  /** From delivery an order with something to pay goes to payment; a free order goes straight to confirm. */
  lemma DeliveryExamples()
    ensures NextState(Delivery, true, true) == Some(PaymentStep)
    ensures NextState(Delivery, true, false) == Some(Confirm)
  {
  }
}
