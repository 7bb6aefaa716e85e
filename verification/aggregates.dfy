/**
 * The order's monetary aggregates and the side-effect-free queries over its
 * collections: item, payment and adjustment totals, item count, shipping and
 * tax totals, the products in the cart, the lines short of stock and whether
 * any inventory unit is backordered.
 */
module Aggregates {
  import opened Money
  import opened Seqs
  import opened Entities

  function LineAmount(li: LineItem): int { li.Amount() }
  function Quantity(li: LineItem): int { li.quantity }
  function ShortOfStock(li: LineItem): bool { li.insufficientStock }

  function PaymentAmount(p: Payment): int { p.amount }
  function IsCompleted(p: Payment): bool { p.state == Completed }
  /** A payment's contribution to the payment total. */
  function CompletedAmount(p: Payment): int { if IsCompleted(p) then p.amount else 0 }

  function AdjustmentAmount(a: Adjustment): int { a.amount }
  function IsEligible(a: Adjustment): bool { a.eligible }
  /** An adjustment's contribution to the adjustment total. */
  function EligibleAmount(a: Adjustment): int { if IsEligible(a) then a.amount else 0 }
  function IsTax(a: Adjustment): bool { a.originator.TaxRateOrigin? }
  function IsNotTax(a: Adjustment): bool { !IsTax(a) }
  function IsShipping(a: Adjustment): bool { a.originator.ShippingOrigin? }

  function IsBackorderedUnit(u: InventoryUnit): bool { u.state == Backordered }

  /** An adjustment's contribution to the tax total and to the shipping total. */
  function TaxWeight(a: Adjustment): int { if IsTax(a) then a.amount else 0 }
  function ShippingWeight(a: Adjustment): int { if IsShipping(a) then a.amount else 0 }

  /** `item_total`: the sum of the line amounts; never negative when no price is. */
  function ItemTotal(items: seq<LineItem>): (r: Money)
    ensures (forall i :: 0 <= i < |items| ==> items[i].price >= 0) ==> r >= 0
  {
    if forall i :: 0 <= i < |items| ==> items[i].price >= 0 then
      SumNonNegative(items, LineAmount);
      Sum(items, LineAmount)
    else
      Sum(items, LineAmount)
  }

  /** `payment_total`: the sum of the completed payments, negative ones included. */
  function PaymentTotal(payments: seq<Payment>): Money { Sum(payments, CompletedAmount) }

  /** `adjustment_total`: the sum of the eligible adjustments. */
  function AdjustmentTotal(adjustments: seq<Adjustment>): Money { Sum(adjustments, EligibleAmount) }

  /** `item_count`: the number of units across all lines; never negative. */
  function ItemCount(items: seq<LineItem>): (n: int)
    ensures n >= 0
  {
    SumNonNegative(items, Quantity);
    Sum(items, Quantity)
  }

  /**
   * `ship_total`: the sum of the adjustments created by shipping methods,
   * which is the sum over all adjustments counting only the shipping ones.
   */
  function ShipTotal(adjustments: seq<Adjustment>): (r: Money)
    ensures r == Sum(adjustments, ShippingWeight)
  {
    SumOfFilter(adjustments, IsShipping, AdjustmentAmount, ShippingWeight);
    Sum(Filter(adjustments, IsShipping), AdjustmentAmount)
  }

  /**
   * `tax_total`: the sum of the adjustments created by tax rates, which is
   * the sum over all adjustments counting only the tax ones.
   */
  function TaxTotal(adjustments: seq<Adjustment>): (r: Money)
    ensures r == Sum(adjustments, TaxWeight)
  {
    SumOfFilter(adjustments, IsTax, AdjustmentAmount, TaxWeight);
    Sum(Filter(adjustments, IsTax), AdjustmentAmount)
  }

  /** `insufficient_stock_lines`: the lines whose variant is short of stock. */
  function InsufficientStockLines(items: seq<LineItem>): (r: seq<LineItem>)
    ensures forall li :: li in r <==> li in items && li.insufficientStock
  {
    Filter(items, ShortOfStock)
  }

  /** `products`: the product of each line's variant, in line order. */
  function Products(items: seq<LineItem>): (r: seq<string>)
    ensures |r| == |items|
    ensures forall i :: 0 <= i < |items| ==> r[i] == items[i].variant.product
  {
    if |items| == 0 then [] else Products(items[..|items| - 1]) + [items[|items| - 1].variant.product]
  }

  /** `backordered?`: some inventory unit of the order is backordered. */
  function IsBackordered(units: seq<InventoryUnit>): (b: bool)
    ensures b <==> exists i :: 0 <= i < |units| && units[i].state == Backordered
  {
    var backorder := Filter(units, IsBackorderedUnit);
    assert forall i :: 0 <= i < |units| && units[i].state == Backordered ==> units[i] in backorder;
    assert |backorder| > 0 ==> backorder[0] in units && IsBackorderedUnit(backorder[0]);
    |backorder| > 0
  }

  /**
   * Summing the zero-weighted contributions is the same as summing the amounts
   * of the filtered sub-collection; this is what makes `PaymentTotal` the sum
   * over `payments.completed` and `AdjustmentTotal` the sum over
   * `adjustments.eligible`.
   */
  lemma {:induction false} SumOfFilter<T(!new)>(s: seq<T>, p: T -> bool, amount: T -> int, weight: T -> int)
    requires forall i :: 0 <= i < |s| ==> weight(s[i]) == if p(s[i]) then amount(s[i]) else 0
    ensures Sum(s, weight) == Sum(Filter(s, p), amount)
  {
    if |s| > 0 {
      var s' := s[..|s| - 1];
      SumOfFilter(s', p, amount, weight);
      if p(s[|s| - 1]) {
        SumAppend(Filter(s', p), [s[|s| - 1]], amount);
      }
    }
  }

  /** The payment total is the sum over the completed payments only. */
  lemma PaymentTotalIsCompletedSum(payments: seq<Payment>)
    ensures PaymentTotal(payments) == Sum(Filter(payments, IsCompleted), PaymentAmount)
  {
    SumOfFilter(payments, IsCompleted, PaymentAmount, CompletedAmount);
  }

  /** The adjustment total is the sum over the eligible adjustments only. */
  lemma AdjustmentTotalIsEligibleSum(adjustments: seq<Adjustment>)
    ensures AdjustmentTotal(adjustments) == Sum(Filter(adjustments, IsEligible), AdjustmentAmount)
  {
    SumOfFilter(adjustments, IsEligible, AdjustmentAmount, EligibleAmount);
  }

  /** Adding an ineligible adjustment, whatever its amount, leaves the adjustment total alone. */
  lemma IneligibleAdjustmentIgnored(adjustments: seq<Adjustment>, extra: seq<Adjustment>)
    requires forall i :: 0 <= i < |extra| ==> !extra[i].eligible
    ensures AdjustmentTotal(adjustments + extra) == AdjustmentTotal(adjustments)
  {
    SumAppend(adjustments, extra, EligibleAmount);
    SumOfZeros(extra, EligibleAmount);
  }

  /** Totals over a cart grown by more lines grow by the totals of those lines. */
  lemma ItemTotalsAdd(items: seq<LineItem>, more: seq<LineItem>)
    ensures ItemTotal(items + more) == ItemTotal(items) + ItemTotal(more)
    ensures ItemCount(items + more) == ItemCount(items) + ItemCount(more)
  {
    SumAppend(items, more, LineAmount);
    SumAppend(items, more, Quantity);
  }
}
