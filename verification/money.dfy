/**
 * Money is held as an integer number of millionths of the currency unit, so
 * that amounts such as 100.012343 are exact.  The only place where the order
 * cares about precision is the payment-state comparison, which first rounds
 * both sides to whole cents.
 */
module Money {

  type Money = int

  /** Millionths of a unit in one cent. */
  const MicrosPerCent: int := 10000

  /**
   * Rounds an amount to whole cents, halves away from zero (the rounding of
   * Ruby's Float#round).  The rounded value is never more than half a cent
   * away from the amount, and strictly closer than half a cent on the side
   * towards zero.
   */
  function RoundToCents(m: Money): (c: int)
    ensures m >= 0 ==> -5000 <= m - c * MicrosPerCent < 5000
    ensures m < 0 ==> -5000 < m - c * MicrosPerCent <= 5000
    ensures m >= 0 ==> c >= 0
    ensures m < 0 ==> c <= 0
  {
    if m >= 0 then (m + 5000) / MicrosPerCent else -((-m + 5000) / MicrosPerCent)
  }

  /** Amounts that are already whole cents are left as they are. */
  lemma RoundWholeCents(c: int)
    ensures RoundToCents(c * MicrosPerCent) == c
  {
  }

  /** Rounding to cents never reverses the order of two amounts. */
  lemma RoundMonotone(a: Money, b: Money)
    requires a <= b
    ensures RoundToCents(a) <= RoundToCents(b)
  {
  }

  /** Amounts a whole cent or more apart round to different cents, in the same order. */
  lemma CentApartRoundsApart(a: Money, b: Money)
    requires a + MicrosPerCent <= b
    ensures RoundToCents(a) < RoundToCents(b)
  {
    RoundMonotone(a + MicrosPerCent, b);
  }

  /** Two amounts that round to the same cent are less than one cent apart. */
  lemma SameCentsWithinOneCent(a: Money, b: Money)
    requires RoundToCents(a) == RoundToCents(b)
    ensures -MicrosPerCent < a - b < MicrosPerCent
  {
  }
}
