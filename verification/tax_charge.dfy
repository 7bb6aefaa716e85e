/**
 * `create_tax_charge!` as a function of the adjustments: every existing tax
 * adjustment is destroyed, then each tax rate that matches the order's
 * address creates one adjustment labelled "<description> <rate*100>%".
 * The percentage is printed as an exact decimal: the whole part without
 * leading zeros, then a point and one or two digits, with no trailing zero
 * beyond the first (5.0, 15.0, 7.25, 8.5).
 */
module TaxCharge {
  import opened Wrappers
  import opened Money
  import opened Seqs
  import opened Entities
  import opened Aggregates

  predicate IsDigit(c: char) { '0' <= c <= '9' }

  /** The character of a decimal digit. */
  function DigitChar(d: nat): (c: char)
    requires d < 10
    ensures IsDigit(c) && c as int - '0' as int == d
  {
    (d + '0' as int) as char
  }

  predicate AllDigits(s: string) { forall i :: 0 <= i < |s| ==> IsDigit(s[i]) }

  /** The decimal digits of `n`, without leading zeros. */
  function NatText(n: nat): (s: string)
    ensures |s| > 0 && AllDigits(s)
    ensures s[0] == '0' ==> n == 0 && s == "0"
  {
    if n < 10 then [DigitChar(n)] else NatText(n / 10) + [DigitChar(n % 10)]
  }

  /** The number a string of digits denotes. */
  function DigitsValue(s: string): nat
    requires AllDigits(s)
  {
    if |s| == 0 then 0 else DigitsValue(s[..|s| - 1]) * 10 + (s[|s| - 1] as int - '0' as int)
  }

  lemma {:induction false} NatTextValue(n: nat)
    ensures DigitsValue(NatText(n)) == n
  {
    if n >= 10 {
      NatTextValue(n / 10);
      var s := NatText(n);
      assert s[..|s| - 1] == NatText(n / 10);
    }
  }

  /**
   * The text of a rate given in ten-thousandths, as a percentage: 500 (0.05)
   * is "5.0", 1500 is "15.0", 725 is "7.25", 850 is "8.5".
   */
  function PercentText(amount: nat): (s: string)
    ensures |s| >= 3 && IsDigit(s[0]) && IsDigit(s[|s| - 1])
    ensures s[|s| - 2] == '.' || (s[|s| - 3] == '.' && IsDigit(s[|s| - 2]))
    ensures amount % 10 == 0 ==> s[|s| - 2] == '.'
    ensures amount % 10 != 0 ==> s[|s| - 3] == '.' && s[|s| - 1] != '0'
    ensures s[0] == '0' ==> s[1] == '.'
  {
    var whole, hundredths := amount / 100, amount % 100;
    NatText(whole) + "." +
      (if hundredths % 10 == 0 then [DigitChar(hundredths / 10)]
       else [DigitChar(hundredths / 10), DigitChar(hundredths % 10)])
  }

  /** The position of the first '.' in `s`, or |s| when there is none. */
  function IndexOfPoint(s: string): (i: nat)
    ensures i <= |s|
  {
    if |s| == 0 || s[0] == '.' then 0 else 1 + IndexOfPoint(s[1..])
  }

  /**
   * Reads a percentage written as digits, a point and one or two digits back
   * into ten-thousandths of a rate; None for anything else.
   */
  function ParsePercent(s: string): Option<nat>
  {
    var i := IndexOfPoint(s);
    if i == 0 || i == |s| then None
    else
      var whole, fraction := s[..i], s[i + 1..];
      if !AllDigits(whole) || !AllDigits(fraction) || |fraction| == 0 || |fraction| > 2 then None
      else Some(DigitsValue(whole) * 100 + (if |fraction| == 1 then DigitsValue(fraction) * 10 else DigitsValue(fraction)))
  }

  lemma {:induction false} PointAfterDigits(digits: string, rest: string)
    requires AllDigits(digits)
    ensures IndexOfPoint(digits + "." + rest) == |digits|
  {
    if |digits| > 0 {
      assert (digits + "." + rest)[1..] == digits[1..] + "." + rest;
      PointAfterDigits(digits[1..], rest);
    }
  }

  /** The printed percentage reads back as exactly the rate it was printed from. */
  lemma PercentTextRoundTrip(amount: nat)
    ensures ParsePercent(PercentText(amount)) == Some(amount)
  {
    var whole, hundredths := amount / 100, amount % 100;
    var w := NatText(whole);
    var f := if hundredths % 10 == 0 then [DigitChar(hundredths / 10)]
             else [DigitChar(hundredths / 10), DigitChar(hundredths % 10)];
    var s := PercentText(amount);
    assert s == w + "." + f;
    PointAfterDigits(w, f);
    assert s[..|w|] == w;
    assert s[|w| + 1..] == f;
    NatTextValue(whole);
    if hundredths % 10 == 0 {
      assert DigitsValue(f) == DigitsValue([]) * 10 + hundredths / 10;
    } else {
      assert f[..1] == [DigitChar(hundredths / 10)];
      assert DigitsValue(f[..1]) == hundredths / 10;
      assert DigitsValue(f) == (hundredths / 10) * 10 + hundredths % 10;
    }
  }

  /** The label of a tax rate's adjustment. */
  function TaxLabel(rate: TaxRate): (text: string)
    ensures |text| > |rate.description| + 1
    ensures text[..|rate.description| + 1] == rate.description + " " && text[|text| - 1] == '%'
  {
    rate.description + " " + PercentText(rate.amount) + "%"
  }

  /** The rate a label carries for a given calculator description, if it is a tax label of that description. */
  function RateInLabel(text: string, description: string): Option<nat>
  {
    var n := |description|;
    if |text| < n + 2 || text[..n + 1] != description + " " || text[|text| - 1] != '%' then None
    else ParsePercent(text[n + 1..|text| - 1])
  }

  /** A tax label names its rate's description and carries the rate itself. */
  lemma TaxLabelRoundTrip(rate: TaxRate)
    ensures RateInLabel(TaxLabel(rate), rate.description) == Some(rate.amount)
  {
    var text, n := TaxLabel(rate), |rate.description|;
    var p := PercentText(rate.amount);
    assert text[..n + 1] == rate.description + " ";
    assert text[n + 1..|text| - 1] == p;
    PercentTextRoundTrip(rate.amount);
  }

  /**
   * The adjustment a matched rate creates: a mandatory, eligible, unlocked
   * tax adjustment for the calculator's charge, labelled with the rate.
   */
  function TaxAdjustment(rate: TaxRate): (a: Adjustment)
    ensures IsTax(a) && a.originator.rateId == rate.id
    ensures a.labelText == TaxLabel(rate)
    ensures a.amount == rate.charge && a.eligible && a.mandatory && !a.locked
  {
    Adjustment(rate.charge, TaxLabel(rate), TaxRateOrigin(rate.id), true, true, false)
  }

  /** One tax adjustment per matched rate, in rate order. */
  function TaxAdjustments(rates: seq<TaxRate>): (r: seq<Adjustment>)
    ensures |r| == |rates|
    ensures forall i :: 0 <= i < |rates| ==> r[i] == TaxAdjustment(rates[i])
  {
    if |rates| == 0 then [] else TaxAdjustments(rates[..|rates| - 1]) + [TaxAdjustment(rates[|rates| - 1])]
  }

  /** The adjustments after `create_tax_charge!`: the non-tax ones kept, then the created tax ones. */
  function TaxCharged(adjustments: seq<Adjustment>, rates: seq<TaxRate>): (r: seq<Adjustment>)
    ensures |r| == |Filter(adjustments, IsNotTax)| + |rates|
    ensures forall i :: 0 <= i < |r| && !IsTax(r[i]) ==> r[i] in adjustments
  {
    Filter(adjustments, IsNotTax) + TaxAdjustments(rates)
  }

  function RateCharge(rate: TaxRate): int { rate.charge }

  /**
   * After recomputing tax the order's tax adjustments are exactly one per
   * matched rate, and none at all when no rate matches.
   */
  lemma TaxChargedReplacesTax(adjustments: seq<Adjustment>, rates: seq<TaxRate>)
    ensures Filter(TaxCharged(adjustments, rates), IsTax) == TaxAdjustments(rates)
  {
    var kept, created := Filter(adjustments, IsNotTax), TaxAdjustments(rates);
    FilterAppend(kept, created, IsTax);
    FilterNone(kept, IsTax);
    FilterAll(created, IsTax);
  }

  /** Recomputing tax leaves the order's other adjustments untouched, in their order. */
  lemma TaxChargedKeepsOthers(adjustments: seq<Adjustment>, rates: seq<TaxRate>)
    ensures Filter(TaxCharged(adjustments, rates), IsNotTax) == Filter(adjustments, IsNotTax)
  {
    var kept, created := Filter(adjustments, IsNotTax), TaxAdjustments(rates);
    FilterAppend(kept, created, IsNotTax);
    FilterAll(kept, IsNotTax);
    FilterNone(created, IsNotTax);
  }

  /** After recomputing tax the order's tax total is the sum of the matched rates' charges. */
  lemma TaxChargedTaxTotal(adjustments: seq<Adjustment>, rates: seq<TaxRate>)
    ensures TaxTotal(TaxCharged(adjustments, rates)) == Sum(rates, RateCharge)
  {
    TaxChargedReplacesTax(adjustments, rates);
    SumCorresponding(TaxAdjustments(rates), rates, AdjustmentAmount, RateCharge);
  }

  /**
   * Every tax adjustment left by recomputation belongs, in order, to one
   * matched rate: it carries that rate's charge and a label that reads back
   * as that rate.
   */
  lemma TaxChargedLabels(adjustments: seq<Adjustment>, rates: seq<TaxRate>)
    ensures var tax := Filter(TaxCharged(adjustments, rates), IsTax);
      && |tax| == |rates|
      && forall i :: 0 <= i < |rates| ==>
           && tax[i].amount == rates[i].charge
           && RateInLabel(tax[i].labelText, rates[i].description) == Some(rates[i].amount)
  {
    TaxChargedReplacesTax(adjustments, rates);
    forall i | 0 <= i < |rates|
      ensures RateInLabel(TaxLabel(rates[i]), rates[i].description) == Some(rates[i].amount)
    {
      TaxLabelRoundTrip(rates[i]);
    }
  }

  /** Recomputing tax twice with the same rates gives what recomputing once gives: no duplicates accumulate. */
  lemma TaxChargeIdempotent(adjustments: seq<Adjustment>, rates: seq<TaxRate>)
    ensures TaxCharged(TaxCharged(adjustments, rates), rates) == TaxCharged(adjustments, rates)
  {
    TaxChargedReplacesTax(adjustments, rates);
    TaxChargedKeepsOthers(adjustments, rates);
  }
}
