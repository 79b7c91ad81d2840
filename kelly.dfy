/**
 * Kelly-criterion bet sizing: the fraction of the bankroll to stake given a
 * model win probability and decimal odds, and its scaled, capped variant.
 */
module Kelly {

  /**
   * Expected profit per unit staked: `p * b - (1 - p)` with net odds
   * `b = d - 1`, which is the expected return `p * d` less the stake.
   */
  function NetEdge(modelProb: real, decimalOdds: real): (e: real)
    ensures e == modelProb * decimalOdds - 1.0
  {
    modelProb * (decimalOdds - 1.0) - (1.0 - modelProb)
  }

  /**
   * `kelly_criterion`.  Python divides by the net odds only when the edge is
   * positive; that division is by zero exactly when the odds are 1 and the
   * probability exceeds 1, which the precondition excludes.
   */
  function KellyCriterion(modelProb: real, decimalOdds: real): (f: real)
    requires decimalOdds != 1.0 || modelProb <= 1.0
    ensures NetEdge(modelProb, decimalOdds) <= 0.0 ==> f == 0.0
    ensures NetEdge(modelProb, decimalOdds) > 0.0 ==> f * (decimalOdds - 1.0) == NetEdge(modelProb, decimalOdds)
  {
    var b := decimalOdds - 1.0;
    var q := 1.0 - modelProb;
    var edge := modelProb * b - q;
    if edge <= 0.0 then 0.0
    else edge / b
  }

  /**
   * For a genuine probability the Kelly fraction never divides by zero, is
   * zero without an edge, strictly positive with one, and never exceeds the
   * probability itself (because `edge / b == p - (1 - p) / b`).
   */
  lemma {:induction false} KellyBounds(modelProb: real, decimalOdds: real)
    requires 0.0 <= modelProb <= 1.0
    ensures 0.0 <= KellyCriterion(modelProb, decimalOdds) <= modelProb
    ensures KellyCriterion(modelProb, decimalOdds) > 0.0 <==> NetEdge(modelProb, decimalOdds) > 0.0
  {
    var b := decimalOdds - 1.0;
    var edge := NetEdge(modelProb, decimalOdds);
    if edge > 0.0 {
      // A positive edge needs p * b > 1 - p >= 0, hence positive net odds.
      assert edge == modelProb * b - (1.0 - modelProb);
      assert modelProb * b > 0.0;
      assert b > 0.0;
      var f := KellyCriterion(modelProb, decimalOdds);
      assert f * b == edge;
      assert edge <= modelProb * b;
      assert f * b <= modelProb * b;
      assert f > 0.0;
    }
  }

  /** `fractional_kelly`: the Kelly fraction scaled by `fraction`, capped at `maxBet`. */
  function FractionalKelly(modelProb: real, decimalOdds: real, fraction: real, maxBet: real): (f: real)
    requires decimalOdds != 1.0 || modelProb <= 1.0
    ensures f <= maxBet
    ensures f <= KellyCriterion(modelProb, decimalOdds) * fraction
    ensures f == KellyCriterion(modelProb, decimalOdds) * fraction || f == maxBet
  {
    var fullKelly := KellyCriterion(modelProb, decimalOdds);
    Min(fullKelly * fraction, maxBet)
  }

  function Min(x: real, y: real): real
  {
    if x <= y then x else y
  }

  /** Without an edge, and with a non-negative cap, no bet is sized at all. */
  lemma NoEdgeNoBet(modelProb: real, decimalOdds: real, fraction: real, maxBet: real)
    requires decimalOdds != 1.0 || modelProb <= 1.0
    requires NetEdge(modelProb, decimalOdds) <= 0.0 && maxBet >= 0.0
    ensures FractionalKelly(modelProb, decimalOdds, fraction, maxBet) == 0.0
  {
  }

  /** Below the cap the fractional Kelly is exactly the scaled Kelly fraction. */
  lemma BelowCapIsScaled(modelProb: real, decimalOdds: real, fraction: real, maxBet: real)
    requires decimalOdds != 1.0 || modelProb <= 1.0
    requires KellyCriterion(modelProb, decimalOdds) * fraction <= maxBet
    ensures FractionalKelly(modelProb, decimalOdds, fraction, maxBet) == KellyCriterion(modelProb, decimalOdds) * fraction
  {
  }

  /** A larger safety fraction never gives a smaller bet. */
  lemma {:induction false} FractionalKellyMonotone(modelProb: real, decimalOdds: real, f1: real, f2: real, maxBet: real)
    requires 0.0 <= modelProb <= 1.0
    requires 0.0 <= f1 <= f2
    ensures FractionalKelly(modelProb, decimalOdds, f1, maxBet) <= FractionalKelly(modelProb, decimalOdds, f2, maxBet)
  {
    var k := KellyCriterion(modelProb, decimalOdds);
    KellyBounds(modelProb, decimalOdds);
    assert k * f1 <= k * f2 by {
      assert k * (f2 - f1) >= 0.0;
    }
    assert FractionalKelly(modelProb, decimalOdds, f1, maxBet) == Min(k * f1, maxBet);
    assert FractionalKelly(modelProb, decimalOdds, f2, maxBet) == Min(k * f2, maxBet);
  }

  /** The values the repository's tests check. */
  lemma KellyExamples()
    ensures KellyCriterion(0.5, 2.0) == 0.0
    ensures KellyCriterion(0.45, 2.0) == 0.0
    ensures KellyCriterion(0.55, 2.0) == 0.1
    ensures KellyCriterion(0.8, 2.0) > 0.5
    ensures FractionalKelly(0.6, 2.0, 0.25, 0.05) == KellyCriterion(0.6, 2.0) * 0.25
    ensures FractionalKelly(0.9, 2.0, 1.0, 0.05) == 0.05
    ensures FractionalKelly(0.5, 2.0, 0.25, 0.05) == 0.0
  {
  }
}
