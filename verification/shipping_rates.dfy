/**
 * `rate_hash`: the shipping options offered to the customer.  Each shipping
 * method available to the order is quoted by its calculator; methods whose
 * calculator gives no cost are dropped, and the rest are offered cheapest
 * first as {shipping_method, cost, name, id} records.
 */
module ShippingRates {
  import opened Wrappers
  import opened Money
  import opened Seqs
  import opened Entities

  /** A shipping method with what its calculator computed for the order (None: not applicable). */
  datatype Quote = Quote(shippingMethod: ShippingMethod, cost: Option<Money>)

  /** One offered shipping option. */
  datatype Rate = Rate(shippingMethod: ShippingMethod, cost: Money, name: string, id: nat)

  /** The option offered for a quote that has a cost. */
  function RateOf(q: Quote): Rate
    requires q.cost.Some?
  {
    Rate(q.shippingMethod, q.cost.value, q.shippingMethod.name, q.shippingMethod.id)
  }

  /** The rate was built from some priced quote of `quotes`. */
  ghost predicate FromQuotes(x: Rate, quotes: seq<Quote>)
  {
    exists i :: 0 <= i < |quotes| && quotes[i].cost.Some? && x == RateOf(quotes[i])
  }

  /** The method's calculator gave a cost. */
  predicate HasCost(q: Quote) { q.cost.Some? }

  /** The options for the quotes that have a cost, in quote order. */
  function Priced(quotes: seq<Quote>): (r: seq<Rate>)
    ensures |r| <= |quotes|
    ensures forall i :: 0 <= i < |quotes| && quotes[i].cost.Some? ==> RateOf(quotes[i]) in r
    ensures forall x :: x in r ==> FromQuotes(x, quotes)
  {
    if |quotes| == 0 then []
    else
      var init := quotes[..|quotes| - 1];
      var last := quotes[|quotes| - 1];
      var rest := Priced(init);
      assert forall x :: FromQuotes(x, init) ==> FromQuotes(x, quotes) by {
        forall x | FromQuotes(x, init) ensures FromQuotes(x, quotes) {
          var i :| 0 <= i < |init| && init[i].cost.Some? && x == RateOf(init[i]);
          assert quotes[i] == init[i];
        }
      }
      if last.cost.Some? then rest + [RateOf(last)] else rest
  }

  /**
   * The options are exactly the priced quotes, one each and in quote order:
   * the i-th option is built from the i-th quote that has a cost.
   */
  lemma {:induction false} PricedFollowsQuotes(quotes: seq<Quote>)
    ensures |Priced(quotes)| == |Filter(quotes, HasCost)|
    ensures forall i :: 0 <= i < |Priced(quotes)| ==> Priced(quotes)[i] == RateOf(Filter(quotes, HasCost)[i])
  {
    if |quotes| > 0 {
      var init, last := quotes[..|quotes| - 1], quotes[|quotes| - 1];
      PricedFollowsQuotes(init);
      assert quotes == init + [last];
      FilterSnoc(init, last, HasCost);
    }
  }

  /** Costs never decrease along the sequence. */
  predicate SortedByCost(s: seq<Rate>)
  {
    forall i, j :: 0 <= i < j < |s| ==> s[i].cost <= s[j].cost
  }

  /** Inserts `x` into `s` after every cheaper option and before the first option of equal or greater cost. */
  function InsertByCost(x: Rate, s: seq<Rate>): (r: seq<Rate>)
    ensures multiset(r) == multiset(s) + multiset{x}
  {
    if |s| == 0 || x.cost <= s[0].cost then
      [x] + s
    else
      assert s == [s[0]] + s[1..];
      [s[0]] + InsertByCost(x, s[1..])
  }

  /** Inserting into a cost-sorted sequence keeps it sorted. */
  lemma {:induction false} InsertKeepsSorted(x: Rate, s: seq<Rate>)
    requires SortedByCost(s)
    ensures SortedByCost(InsertByCost(x, s))
  {
    if |s| > 0 && x.cost > s[0].cost {
      InsertKeepsSorted(x, s[1..]);
      var tail := InsertByCost(x, s[1..]);
      assert s == [s[0]] + s[1..];
      forall y | y in tail ensures s[0].cost <= y.cost {
        assert y in multiset(tail);
      }
    }
  }

  /** Sorts options by ascending cost; options of equal cost keep their order. */
  function SortByCost(s: seq<Rate>): (r: seq<Rate>)
    ensures multiset(r) == multiset(s)
  {
    if |s| == 0 then []
    else
      assert s == [s[0]] + s[1..];
      InsertByCost(s[0], SortByCost(s[1..]))
  }

  /** The sort's result is sorted by cost. */
  lemma {:induction false} SortIsSorted(s: seq<Rate>)
    ensures SortedByCost(SortByCost(s))
  {
    if |s| > 0 {
      SortIsSorted(s[1..]);
      InsertKeepsSorted(s[0], SortByCost(s[1..]));
    }
  }

  /**
   * `rate_hash`: one option per quote that has a cost, nothing for a quote
   * without one, cheapest first.
   */
  function RateHash(quotes: seq<Quote>): (r: seq<Rate>)
    ensures SortedByCost(r)
    ensures multiset(r) == multiset(Priced(quotes))
    ensures |r| <= |quotes|
    ensures forall i :: 0 <= i < |quotes| && quotes[i].cost.Some? ==> RateOf(quotes[i]) in r
    ensures forall x :: x in r ==> FromQuotes(x, quotes)
    ensures forall x :: x in r ==> x.name == x.shippingMethod.name && x.id == x.shippingMethod.id
  {
    var priced := Priced(quotes);
    var sorted := SortByCost(priced);
    SortIsSorted(priced);
    assert |sorted| == |multiset(sorted)| == |multiset(priced)| == |priced|;
    assert forall x :: x in sorted <==> x in priced by {
      forall x ensures x in sorted <==> x in priced {
        assert x in sorted <==> x in multiset(sorted);
        assert x in priced <==> x in multiset(priced);
      }
    }
    sorted
  }
}
