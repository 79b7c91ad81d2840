/**
 * Conversions between American odds, decimal odds and implied probability.
 *
 * Each converter is a branch and an arithmetic expression.  Where Python would
 * raise ZeroDivisionError the function has a `requires` that excludes exactly
 * those inputs; everything else is total.
 */
module Odds {

  function Abs(x: real): (r: real)
    ensures r >= 0.0 && (r == x || r == -x)
  {
    if x < 0.0 then -x else x
  }

  /** `american_to_decimal`: total payout per unit staked.  Zero odds divide by zero. */
  function AmericanToDecimal(american: real): (d: real)
    requires american != 0.0
    ensures d > 1.0
  {
    if american > 0.0 then american / 100.0 + 1.0
    else 100.0 / Abs(american) + 1.0
  }

  /** `decimal_to_american`.  Decimal odds of exactly 1 divide by zero. */
  function DecimalToAmerican(decimal: real): (american: real)
    requires decimal != 1.0
    ensures decimal >= 2.0 ==> american >= 100.0
    ensures 1.0 < decimal < 2.0 ==> american < -100.0
  {
    if decimal >= 2.0 then (decimal - 1.0) * 100.0
    else -100.0 / (decimal - 1.0)
  }

  /** `american_to_implied_prob`.  Total: odds of 0 fall in the positive branch and give 1. */
  function AmericanToImpliedProb(american: real): (p: real)
    ensures american != 0.0 ==> 0.0 < p < 1.0
    ensures american == 0.0 ==> p == 1.0
  {
    if american < 0.0 then Abs(american) / (Abs(american) + 100.0)
    else 100.0 / (american + 100.0)
  }

  /** `implied_prob_to_american`.  Probabilities 0 and 1 divide by zero. */
  function ImpliedProbToAmerican(prob: real): (american: real)
    requires prob != 0.0 && prob != 1.0
    ensures american != 0.0
    ensures 0.5 <= prob < 1.0 ==> american <= -100.0
    ensures 0.0 < prob < 0.5 ==> american > 100.0
  {
    if prob >= 0.5 then
      var ratio := prob / (1.0 - prob);
      assert prob < 1.0 ==> ratio * (1.0 - prob) == prob && ratio >= 1.0;
      -ratio * 100.0
    else
      var ratio := (1.0 - prob) / prob;
      assert prob > 0.0 ==> ratio * prob == 1.0 - prob && ratio > 1.0;
      ratio * 100.0
  }

  /**
   * Converting American odds to decimal and back is exact precisely for odds
   * of at least +100 or below -100.  Odds in (-100, +100) are not quoted in
   * practice; -100 comes back as +100 (both mean even money).
   */
  lemma {:induction false} DecimalRoundTrip(american: real)
    requires american != 0.0
    ensures DecimalToAmerican(AmericanToDecimal(american)) == american
            <==> american >= 100.0 || american < -100.0
    ensures american == -100.0 ==> DecimalToAmerican(AmericanToDecimal(american)) == 100.0
  {
    var d := AmericanToDecimal(american);
    if american > 0.0 {
      assert d == american / 100.0 + 1.0;
      if american < 100.0 {
        assert d < 2.0;
        assert DecimalToAmerican(d) < 0.0;
      }
    } else {
      var m := -american;
      assert d - 1.0 == 100.0 / m;
      if m > 100.0 {
        assert d < 2.0;
        assert -100.0 / (100.0 / m) == -m;
      } else {
        assert d >= 2.0;
        assert DecimalToAmerican(d) == (100.0 / m) * 100.0;
        assert DecimalToAmerican(d) > 0.0;
      }
    }
  }

  /** Every decimal odds above 1 is hit exactly by some American odds. */
  lemma {:induction false} AmericanRoundTrip(decimal: real)
    requires decimal > 1.0
    ensures DecimalToAmerican(decimal) != 0.0
    ensures AmericanToDecimal(DecimalToAmerican(decimal)) == decimal
  {
    var a := DecimalToAmerican(decimal);
    if decimal < 2.0 {
      assert a == -100.0 / (decimal - 1.0);
      assert Abs(a) == 100.0 / (decimal - 1.0);
      assert 100.0 / Abs(a) == decimal - 1.0;
    }
  }

  /** An implied probability strictly between 0 and 1 survives the round trip through American odds exactly. */
  lemma {:induction false} ImpliedProbRoundTrip(prob: real)
    requires 0.0 < prob < 1.0
    ensures AmericanToImpliedProb(ImpliedProbToAmerican(prob)) == prob
  {
    var a := ImpliedProbToAmerican(prob);
    if prob >= 0.5 {
      var m := prob / (1.0 - prob) * 100.0;
      assert Abs(a) == m;
      assert m + 100.0 == 100.0 / (1.0 - prob);
      assert m / (m + 100.0) == prob;
    } else {
      assert a + 100.0 == 100.0 / prob;
      assert 100.0 / (100.0 / prob) == prob;
    }
  }

  /** The implied probability of nonzero American odds is the reciprocal of their decimal odds. */
  lemma {:induction false} ImpliedProbIsReciprocal(american: real)
    requires american != 0.0
    ensures AmericanToImpliedProb(american) == 1.0 / AmericanToDecimal(american)
  {
    if american > 0.0 {
      assert AmericanToDecimal(american) == (american + 100.0) / 100.0;
    } else {
      var m := -american;
      assert AmericanToDecimal(american) == (100.0 + m) / m;
    }
  }

  /**
   * The fair decimal odds of an outcome with probability `prob` are `1 / prob`:
   * the two conversions the backtest chains to synthesise odds.
   */
  lemma {:induction false} FairDecimalOdds(prob: real)
    requires 0.0 < prob < 1.0
    ensures ImpliedProbToAmerican(prob) != 0.0
    ensures AmericanToDecimal(ImpliedProbToAmerican(prob)) == 1.0 / prob
  {
    var a := ImpliedProbToAmerican(prob);
    ImpliedProbRoundTrip(prob);
    ImpliedProbIsReciprocal(a);
  }

  /** The values the repository's tests check. */
  lemma OddsExamples()
    ensures AmericanToDecimal(150.0) == 2.5
    ensures AmericanToDecimal(100.0) == 2.0
    ensures AmericanToDecimal(-150.0) == 5.0 / 3.0
    ensures DecimalToAmerican(2.5) == 150.0
    ensures DecimalToAmerican(1.5) == -200.0
    ensures AmericanToImpliedProb(-150.0) == 0.6
    ensures AmericanToImpliedProb(150.0) == 0.4
  {
  }
}
