/** Percentage entries: the form asks for rates in percent and divides by 100
    as it reads them, so that every rate the metrics see is a fraction. */
module Percent {

  /** Converts a value entered in percent to the fraction it denotes. */
  function ToFraction(p: real): (f: real)
    ensures f * 100.0 == p
    ensures p == 0.0 <==> f == 0.0
    ensures p > 0.0 <==> f > 0.0
  {
    p / 100.0
  }

  /** A rate entered in [0, 100] percent is a fraction in [0, 1], and only such
      a rate is. */
  lemma RateFraction(p: real)
    ensures 0.0 <= p <= 100.0 <==> 0.0 <= ToFraction(p) <= 1.0
  {
  }

  /** A change entered in [-100, 100] percent is a fraction in [-1, 1], and only
      such a change is. */
  lemma ChangeFraction(p: real)
    ensures -100.0 <= p <= 100.0 <==> -1.0 <= ToFraction(p) <= 1.0
  {
  }

  /** Converting is order-preserving and injective: no two entries collapse. */
  lemma ToFractionMonotone(p: real, q: real)
    ensures p <= q <==> ToFraction(p) <= ToFraction(q)
    ensures p == q <==> ToFraction(p) == ToFraction(q)
  {
  }
}
