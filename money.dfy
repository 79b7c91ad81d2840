/**
 * Money and display rounding.
 *
 * Bankrolls, bets and payouts are kept in integer cents, so that Python's
 * `round(x, 2)` on a dollar amount becomes one explicit rule: round the exact
 * real number of cents to the nearest integer, ties to the even neighbour
 * (the rule Python's `round` applies).  Binary floating point is not modelled.
 */
module Money {

  /** Nearest integer to `x`, ties to even. */
  function RoundHalfEven(x: real): (n: int)
    ensures x - 0.5 <= n as real <= x + 0.5
    ensures n as real == x + 0.5 || n as real == x - 0.5 ==> n % 2 == 0
  {
    var f := x.Floor;
    var frac := x - f as real;
    if frac < 0.5 then f
    else if frac > 0.5 then f + 1
    else if f % 2 == 0 then f
    else f + 1
  }

  /** Python's `round(x, 4)`, as used for the ledger's display columns. */
  function Round4(x: real): (r: real)
    ensures x - 0.00005 <= r <= x + 0.00005
  {
    RoundHalfEven(x * 10000.0) as real / 10000.0
  }

  /** Rounding an amount that already is a whole number of cents changes nothing. */
  lemma RoundExact(n: int)
    ensures RoundHalfEven(n as real) == n
  {
  }

  /** Rounding never reverses the order of two amounts. */
  lemma {:induction false} RoundMonotone(x: real, y: real)
    requires x <= y
    ensures RoundHalfEven(x) <= RoundHalfEven(y)
  {
    var fx, fy := x.Floor, y.Floor;
    if fx < fy {
      assert RoundHalfEven(x) <= fx + 1 <= fy <= RoundHalfEven(y);
    } else {
      assert fx == fy;
      assert x - fx as real <= y - fy as real;
    }
  }

  /** `round(x, 4)` never reverses the order of two values either. */
  lemma Round4Monotone(x: real, y: real)
    requires x <= y
    ensures Round4(x) <= Round4(y)
  {
    RoundMonotone(x * 10000.0, y * 10000.0);
  }

  /** Rounding a non-negative amount gives a non-negative number of cents. */
  lemma RoundNonNegative(x: real)
    requires x >= 0.0
    ensures RoundHalfEven(x) >= 0
  {
    RoundMonotone(0.0, x);
    RoundExact(0);
  }

  lemma ProductNonNegative(x: real, y: real)
    requires x >= 0.0 && y >= 0.0
    ensures x * y >= 0.0
  {
  }

  /** A share in [0, 1] of a non-negative amount lies between nothing and the amount. */
  lemma RoundedProductNonNegative(x: real, y: real)
    ensures x >= 0.0 && y >= 0.0 ==> RoundHalfEven(x * y) >= 0
  {
    if x >= 0.0 && y >= 0.0 {
      ProductNonNegative(x, y);
      RoundNonNegative(x * y);
    }
  }

  lemma ShareWithin(amount: int, c: real)
    requires amount >= 0 && 0.0 <= c <= 1.0
    ensures 0.0 <= amount as real * c <= amount as real
  {
    var x := amount as real;
    ProductNonNegative(x, c);
    ProductNonNegative(x, 1.0 - c);
    assert x * c + x * (1.0 - c) == x;
  }

  /** A share in [0, 1] of a non-negative number of cents, rounded to the cent, is between nothing and the amount. */
  lemma RoundedShareWithin(amount: int, c: real)
    ensures amount >= 0 && 0.0 <= c <= 1.0 ==> 0 <= RoundHalfEven(amount as real * c) <= amount
  {
    if amount >= 0 && 0.0 <= c <= 1.0 {
      ShareWithin(amount, c);
      RoundWithin(amount as real * c, amount);
    }
  }

  /** Rounding an amount between 0 and `n` cents gives between 0 and `n` cents. */
  lemma RoundWithin(x: real, n: int)
    requires 0.0 <= x <= n as real
    ensures 0 <= RoundHalfEven(x) <= n
  {
    RoundNonNegative(x);
    RoundAtMost(x, n);
  }

  /** Rounding an amount that is at most `n` cents gives at most `n` cents. */
  lemma RoundAtMost(x: real, n: int)
    requires x <= n as real
    ensures RoundHalfEven(x) <= n
  {
    RoundMonotone(x, n as real);
    RoundExact(n);
  }
}
