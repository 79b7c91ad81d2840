/**
 * The betting backtest: one bankroll replayed over predicted games in order.
 * For every game the engine picks the side the model favours, prices it from
 * the quoted lines or from the model probability with a 5% margin, sizes a
 * fractional-Kelly stake, skips games without enough edge or with a stake
 * under one dollar, settles the bet and records it in the ledger.
 *
 * Amounts are integer cents (see `Money`).  A game on which Python would
 * raise `ZeroDivisionError` ends the run without a ledger (`None`).
 */
module Backtest {
  import opened GameRecords
  import opened Configuration
  import opened Money
  import Odds
  import Kelly

  datatype Option<T> = None | Some(value: T)

  /** A game with the model's home win probability and, when the frame has them, the American lines. */
  datatype PredictedGame = PredictedGame(
    date: int,
    home: Team,
    away: Team,
    homeWin: bool,
    modelHomeProb: real,
    homeLine: real,
    awayLine: real
  )

  /** The side the engine backs and the model's probability for it. */
  datatype Pick = Pick(team: Team, prob: real, isHome: bool)

  /** One ledger row. */
  datatype Bet = Bet(
    date: int,
    home: Team,
    away: Team,
    pick: Team,
    pickProb: real,      // rounded to 4 places
    edge: real,          // rounded to 4 places
    decimalOdds: real,   // rounded to 4 places
    betFraction: real,   // rounded to 4 places
    betAmount: int,      // cents
    won: bool,
    payout: int,         // cents
    bankroll: int        // cents, after the bet
  )

  /** What one game does to the run. */
  datatype Step = Crash | Skip | Placed(bet: Bet)

  /** The bankroll and the ledger so far. */
  datatype Run = Run(bankroll: int, bets: seq<Bet>)

  /** The side with the higher model probability, the home side on a tie. */
  function PickSide(g: PredictedGame): (p: Pick)
    ensures p.isHome <==> g.modelHomeProb >= 0.5
    ensures p.team == (if p.isHome then g.home else g.away)
    ensures p.prob == (if p.isHome then g.modelHomeProb else 1.0 - g.modelHomeProb)
    ensures p.prob >= 0.5 && p.prob >= g.modelHomeProb && p.prob >= 1.0 - g.modelHomeProb
  {
    if g.modelHomeProb >= 0.5 then Pick(g.home, g.modelHomeProb, true)
    else Pick(g.away, 1.0 - g.modelHomeProb, false)
  }

  /**
   * The decimal odds of the pick: from its quoted line when the frame has
   * lines, otherwise the fair odds of the model probability less 5%.  `None`
   * where Python divides by zero (a zero line, or a pick probability of 0 or 1).
   */
  function PickOdds(g: PredictedGame, pick: Pick, hasOdds: bool): (d: Option<real>)
    ensures d.Some? ==> d.value > 0.0
  {
    if hasOdds then
      var line := if pick.isHome then g.homeLine else g.awayLine;
      if line == 0.0 then None else Some(Odds.AmericanToDecimal(line))
    else
      var q := 1.0 - pick.prob;
      if q == 0.0 || q == 1.0 then None
      else Some(Odds.AmericanToDecimal(Odds.ImpliedProbToAmerican(q)) * 0.95)
  }

  /**
   * The model's probability less the probability the odds imply: at positive
   * odds it is positive exactly when the Kelly net edge `p * d - 1` is.
   */
  function Edge(pickProb: real, decimalOdds: real): (e: real)
    requires decimalOdds != 0.0
    ensures decimalOdds > 0.0 ==> (e > 0.0 <==> pickProb * decimalOdds > 1.0)
  {
    EdgeSign(pickProb, decimalOdds);
    pickProb - 1.0 / decimalOdds
  }

  lemma EdgeSign(p: real, d: real)
    requires d != 0.0
    ensures d > 0.0 ==> (p - 1.0 / d > 0.0 <==> p * d > 1.0)
  {
    if d > 0.0 {
      InverseCancels(d);
      DistributesOverDifference(p, 1.0 / d, d);
      ShiftedSign((p - 1.0 / d) * d, p * d, (1.0 / d) * d);
      ProductSign(p - 1.0 / d, d);
    }
  }

  /** With a positive factor, a product has the sign of the other factor. */
  lemma ProductSign(x: real, y: real)
    requires y > 0.0
    ensures x > 0.0 <==> x * y > 0.0
  {
    if x > 0.0 {
      ProductPositive(x, y);
    } else {
      ProductNonNegative(-x, y);
      assert -x * y == -(x * y);
    }
  }

  lemma InverseCancels(d: real)
    requires d != 0.0
    ensures (1.0 / d) * d == 1.0
  {
  }

  lemma DistributesOverDifference(a: real, b: real, c: real)
    ensures (a - b) * c == a * c - b * c
  {
  }

  lemma ShiftedSign(x: real, y: real, z: real)
    requires x == y - z && z == 1.0
    ensures x > 0.0 <==> y > 1.0
  {
  }

  lemma ProductPositive(x: real, y: real)
    requires x > 0.0 && y > 0.0
    ensures x * y > 0.0
  {
  }

  /** The stake in cents: the bankroll times the bet fraction, rounded to the cent. */
  function Stake(bankroll: int, betFraction: real): (s: int)
    ensures bankroll >= 0 && 0.0 <= betFraction <= 1.0 ==> 0 <= s <= bankroll
  {
    RoundedShareWithin(bankroll, betFraction);
    RoundHalfEven(bankroll as real * betFraction)
  }

  /** The team that won: one of the two, the home side exactly when the home side won. */
  function Winner(g: PredictedGame): (w: Team)
    ensures w == g.home || w == g.away
    ensures g.home != g.away ==> (w == g.home <==> g.homeWin)
  {
    if g.homeWin then g.home else g.away
  }

  /** What the engine knows of a game before it looks at the bankroll. */
  datatype Quote = Quote(pick: Pick, odds: real, fraction: real, edge: real)

  /**
   * Pick, odds, bet fraction and edge of game `g`, or `None` where Python
   * raises: no odds, or fractional Kelly dividing by zero.
   */
  function QuoteOf(g: PredictedGame, cfg: Config, hasOdds: bool): (q: Option<Quote>)
    ensures q.None? <==> PickOdds(g, PickSide(g), hasOdds).None?
                         || (PickOdds(g, PickSide(g), hasOdds).value == 1.0 && PickSide(g).prob > 1.0)
    ensures q.Some? ==> q.value.pick == PickSide(g) && PickOdds(g, q.value.pick, hasOdds) == Some(q.value.odds)
    ensures q.Some? ==> q.value.fraction <= cfg.maxBetFraction
    ensures q.Some? ==> q.value.edge == q.value.pick.prob - 1.0 / q.value.odds
  {
    var pick := PickSide(g);
    match PickOdds(g, pick, hasOdds)
    case None => None
    case Some(d) =>
      if d == 1.0 && pick.prob > 1.0 then None
      else Some(Quote(pick, d, Kelly.FractionalKelly(pick.prob, d, cfg.kellyFraction, cfg.maxBetFraction), Edge(pick.prob, d)))
  }

  /** The payout of a won bet in cents: the stake times the net odds, rounded to the cent. */
  function WinPayout(amount: int, decimalOdds: real): (p: int)
    ensures amount >= 0 && decimalOdds >= 1.0 ==> p >= 0
  {
    RoundedProductNonNegative(amount as real, decimalOdds - 1.0);
    RoundHalfEven(amount as real * (decimalOdds - 1.0))
  }

  /** The bet on a quoted game: skipped below the minimum edge or a one-dollar stake, otherwise settled. */
  function Wager(bankroll: int, g: PredictedGame, q: Quote, cfg: Config): (s: Step)
    ensures !s.Crash?
    ensures s.Placed? <==> q.edge >= cfg.minEdge && Stake(bankroll, q.fraction) >= 100
    ensures s.Placed? ==> s.bet.betAmount == Stake(bankroll, q.fraction) && s.bet.bankroll == bankroll + s.bet.payout
  {
    if q.edge < cfg.minEdge then Skip
    else
      var amount := Stake(bankroll, q.fraction);
      if amount < 100 then Skip
      else
        var won := q.pick.team == Winner(g);
        var payout := if won then WinPayout(amount, q.odds) else -amount;
        Placed(Bet(g.date, g.home, g.away, q.pick.team, Round4(q.pick.prob), Round4(q.edge), Round4(q.odds),
                   Round4(q.fraction), amount, won, payout, bankroll + payout))
  }

  /** Settles game `g` against `bankroll`: crash, skip, or a ledger row. */
  function Settle(bankroll: int, g: PredictedGame, cfg: Config, hasOdds: bool): (s: Step)
    ensures s.Crash? <==> QuoteOf(g, cfg, hasOdds).None?
  {
    match QuoteOf(g, cfg, hasOdds)
    case None => Crash
    case Some(q) => Wager(bankroll, g, q, cfg)
  }

  /** The run after the first `n` games, or `None` if one of them crashed. */
  function Replay(games: seq<PredictedGame>, n: nat, cfg: Config, hasOdds: bool): (r: Option<Run>)
    requires n <= |games|
    ensures r.Some? ==> |r.value.bets| <= n
  {
    if n == 0 then Some(Run(cfg.initialBankroll, []))
    else
      match Replay(games, n - 1, cfg, hasOdds)
      case None => None
      case Some(run) => Advance(run, Settle(run.bankroll, games[n - 1], cfg, hasOdds))
  }

  /** The run after one more game. */
  function Advance(run: Run, step: Step): (r: Option<Run>)
    ensures r.None? <==> step.Crash?
    ensures r.Some? ==> run.bets <= r.value.bets && |r.value.bets| <= |run.bets| + 1
  {
    match step
    case Crash => None
    case Skip => Some(run)
    case Placed(b) => Some(Run(b.bankroll, run.bets + [b]))
  }

  /** The ledger of a finished run. */
  function LedgerOf(run: Option<Run>): (l: Option<seq<Bet>>)
    ensures l.None? <==> run.None?
    ensures l.Some? ==> l.value == run.value.bets
  {
    match run
    case None => None
    case Some(r) => Some(r.bets)
  }

  /**
   * The first half of `backtest`'s loop body: pick a side, price it, size
   * the stake.  The imperative form of `QuoteOf`.
   */
  method QuoteGame(g: PredictedGame, cfg: Config, hasOdds: bool) returns (q: Option<Quote>)
    ensures q == QuoteOf(g, cfg, hasOdds)
  {
    var pick, pickProb, isHomePick;
    if g.modelHomeProb >= 0.5 {
      pick, pickProb, isHomePick := g.home, g.modelHomeProb, true;
    } else {
      pick, pickProb, isHomePick := g.away, 1.0 - g.modelHomeProb, false;
    }

    var decimalOdds;
    if hasOdds {
      var pickLine := if isHomePick then g.homeLine else g.awayLine;
      if pickLine == 0.0 {
        return None;
      }
      decimalOdds := Odds.AmericanToDecimal(pickLine);
    } else {
      var complement := 1.0 - pickProb;
      if complement == 0.0 || complement == 1.0 {
        return None;
      }
      var fairLine := Odds.ImpliedProbToAmerican(complement);
      decimalOdds := Odds.AmericanToDecimal(fairLine) * 0.95;
    }

    if decimalOdds == 1.0 && pickProb > 1.0 {
      return None;
    }
    var betFraction := Kelly.FractionalKelly(pickProb, decimalOdds, cfg.kellyFraction, cfg.maxBetFraction);
    var impliedProb := 1.0 / decimalOdds;
    var edge := pickProb - impliedProb;
    q := Some(Quote(Pick(pick, pickProb, isHomePick), decimalOdds, betFraction, edge));
  }

  /**
   * The second half: apply the edge and stake thresholds, then settle
   * against the winner.  The imperative form of `Wager`.
   */
  method PlaceBet(bankroll: int, g: PredictedGame, q: Quote, cfg: Config) returns (step: Step)
    ensures step == Wager(bankroll, g, q, cfg)
  {
    if q.edge < cfg.minEdge {
      return Skip;
    }
    var betAmount := Stake(bankroll, q.fraction);
    if betAmount < 100 {
      return Skip;
    }
    var actualWinner := if g.homeWin then g.home else g.away;
    var won := q.pick.team == actualWinner;
    var payout;
    if won {
      payout := WinPayout(betAmount, q.odds);
    } else {
      payout := -betAmount;
    }
    var newBankroll := bankroll + payout;
    step := Placed(Bet(g.date, g.home, g.away, q.pick.team, Round4(q.pick.prob), Round4(q.edge), Round4(q.odds),
                       Round4(q.fraction), betAmount, won, payout, newBankroll));
  }

  /** `backtest`: the ledger of bets placed, or `None` when a game raises. */
  method RunBacktest(games: seq<PredictedGame>, cfg: Config, hasOdds: bool) returns (ledger: Option<seq<Bet>>)
    ensures ledger == LedgerOf(Replay(games, |games|, cfg, hasOdds))
  {
    var bankroll := cfg.initialBankroll;
    var bets: seq<Bet> := [];
    for i := 0 to |games|
      invariant Replay(games, i, cfg, hasOdds) == Some(Run(bankroll, bets))
    {
      var quote := QuoteGame(games[i], cfg, hasOdds);
      var step := Crash;
      if quote.Some? {
        step := PlaceBet(bankroll, games[i], quote.value, cfg);
      }
      match step {
        case Crash =>
          CrashIsFinal(games, i + 1, |games|, cfg, hasOdds);
          return None;
        case Skip =>
        case Placed(b) =>
          bankroll := b.bankroll;
          bets := bets + [b];
      }
    }
    ledger := Some(bets);
  }

  /** Once a game has raised, the run has no ledger. */
  lemma {:induction false} CrashIsFinal(games: seq<PredictedGame>, n: nat, m: nat, cfg: Config, hasOdds: bool)
    requires n <= m <= |games| && Replay(games, n, cfg, hasOdds) == None
    ensures Replay(games, m, cfg, hasOdds) == None
    decreases m - n
  {
    if n < m {
      CrashIsFinal(games, n + 1, m, cfg, hasOdds);
    }
  }

  /**
   * Synthesised odds: for a model probability strictly inside (0, 1) they are
   * the fair odds of the pick less 5%, `0.95 / (1 - pick_prob)`, at least 1.9;
   * a probability of exactly 0 or 1 divides by zero.
   */
  lemma SynthesisedOdds(g: PredictedGame)
    ensures PickOdds(g, PickSide(g), false).None? <==> g.modelHomeProb == 0.0 || g.modelHomeProb == 1.0
    ensures 0.0 < g.modelHomeProb < 1.0 ==>
              PickOdds(g, PickSide(g), false) == Some(0.95 / (1.0 - PickSide(g).prob))
              && 0.95 / (1.0 - PickSide(g).prob) >= 1.9
  {
    var p := PickSide(g).prob;
    if 0.0 < g.modelHomeProb < 1.0 {
      assert 0.5 <= p < 1.0;
      var q := 1.0 - p;
      Odds.FairDecimalOdds(q);
      assert Odds.AmericanToDecimal(Odds.ImpliedProbToAmerican(q)) * 0.95 == 0.95 / q;
      assert 0.95 / q >= 1.9 by {
        assert 0.0 < q <= 0.5;
        assert 0.95 / q * q == 0.95;
      }
    }
  }

  /** Quoted lines always give decimal odds above 1; synthesised ones do for a model probability in [0, 1]. */
  lemma OddsAboveEven(g: PredictedGame, hasOdds: bool)
    requires PickOdds(g, PickSide(g), hasOdds).Some?
    requires hasOdds || 0.0 <= g.modelHomeProb <= 1.0
    ensures PickOdds(g, PickSide(g), hasOdds).value > 1.0
  {
    if !hasOdds {
      SynthesisedOdds(g);
    }
  }

  /** A game without enough edge, or whose stake rounds below one dollar, changes neither the bankroll nor the ledger. */
  lemma SkipChangesNothing(games: seq<PredictedGame>, n: nat, cfg: Config, hasOdds: bool)
    requires n < |games| && Replay(games, n, cfg, hasOdds).Some? && QuoteOf(games[n], cfg, hasOdds).Some?
    requires var q := QuoteOf(games[n], cfg, hasOdds).value;
             q.edge < cfg.minEdge || Stake(Replay(games, n, cfg, hasOdds).value.bankroll, q.fraction) < 100
    ensures Replay(games, n + 1, cfg, hasOdds) == Replay(games, n, cfg, hasOdds)
  {
  }

  /** A game is bet on only with at least the minimum edge and a stake of at least one dollar. */
  lemma PlacedOnlyWithEdge(bankroll: int, g: PredictedGame, cfg: Config, hasOdds: bool)
    requires Settle(bankroll, g, cfg, hasOdds).Placed?
    ensures QuoteOf(g, cfg, hasOdds).Some?
    ensures var q := QuoteOf(g, cfg, hasOdds).value;
            var b := Settle(bankroll, g, cfg, hasOdds).bet;
            q.edge >= cfg.minEdge && b.betAmount == Stake(bankroll, q.fraction) >= 100
  {
  }

  /**
   * No bet exceeds the bankroll times the cap; with a cap of at most 1 it
   * never exceeds a non-negative bankroll.
   */
  lemma {:induction false} StakeWithinBankroll(bankroll: int, g: PredictedGame, cfg: Config, hasOdds: bool)
    requires Settle(bankroll, g, cfg, hasOdds).Placed?
    requires bankroll >= 0 && cfg.maxBetFraction <= 1.0
    ensures Settle(bankroll, g, cfg, hasOdds).bet.betAmount <= bankroll
  {
    PlacedOnlyWithEdge(bankroll, g, cfg, hasOdds);
    var f := QuoteOf(g, cfg, hasOdds).value.fraction;
    StakeAtMost(bankroll, f);
  }

  lemma StakeAtMost(bankroll: int, f: real)
    requires bankroll >= 0 && f <= 1.0
    ensures Stake(bankroll, f) <= bankroll
  {
    assert bankroll as real * f <= bankroll as real by {
      if f >= 0.0 {
        assert bankroll as real * (1.0 - f) >= 0.0;
      } else {
        assert bankroll as real * f <= 0.0;
      }
    }
    RoundAtMost(bankroll as real * f, bankroll);
  }

  /**
   * Settling: a lost bet pays minus the stake, and the new bankroll is the
   * old one plus the payout.  The bet is won exactly when the picked name is
   * the winner's: when the two teams differ, exactly when the model's
   * favoured side won.
   */
  lemma Settlement(bankroll: int, g: PredictedGame, cfg: Config, hasOdds: bool)
    requires Settle(bankroll, g, cfg, hasOdds).Placed?
    ensures var b := Settle(bankroll, g, cfg, hasOdds).bet;
            && (!b.won ==> b.payout == -b.betAmount)
            && b.bankroll == bankroll + b.payout
            && (b.won <==> b.pick == Winner(g))
            && (g.home != g.away ==> (b.won <==> (g.modelHomeProb >= 0.5 <==> g.homeWin)))
  {
    var q := QuoteOf(g, cfg, hasOdds).value;
    assert Settle(bankroll, g, cfg, hasOdds) == Wager(bankroll, g, q, cfg);
  }

  /** A won bet pays a non-negative amount whenever the odds are above even. */
  lemma WonBetPaysOut(bankroll: int, g: PredictedGame, cfg: Config, hasOdds: bool)
    requires Settle(bankroll, g, cfg, hasOdds).Placed? && Settle(bankroll, g, cfg, hasOdds).bet.won
    requires hasOdds || 0.0 <= g.modelHomeProb <= 1.0
    ensures Settle(bankroll, g, cfg, hasOdds).bet.payout >= 0
  {
    var q := QuoteOf(g, cfg, hasOdds).value;
    assert Settle(bankroll, g, cfg, hasOdds) == Wager(bankroll, g, q, cfg);
    OddsAboveEven(g, hasOdds);
  }

  /** The sum of the payouts of a ledger. */
  function TotalPayout(bets: seq<Bet>): int
  {
    if bets == [] then 0 else TotalPayout(bets[..|bets| - 1]) + bets[|bets| - 1].payout
  }

  /** Every row's bankroll is the previous row's (the initial bankroll for the first row) plus its payout. */
  ghost predicate Chained(initial: int, bets: seq<Bet>)
  {
    && (bets != [] ==> bets[0].bankroll == initial + bets[0].payout)
    && forall k :: 0 < k < |bets| ==> bets[k].bankroll == bets[k - 1].bankroll + bets[k].payout
  }

  /** The accounting identities of a run: chained rows, and the bankroll is the initial one plus every payout. */
  ghost predicate Balanced(initial: int, run: Run)
  {
    && Chained(initial, run.bets)
    && run.bankroll == initial + TotalPayout(run.bets)
    && (run.bets != [] ==> run.bets[|run.bets| - 1].bankroll == run.bankroll)
  }

  /** A step that adds the payout to the bankroll keeps a run balanced. */
  lemma AdvanceBalanced(initial: int, run: Run, step: Step)
    requires Balanced(initial, run) && Advance(run, step).Some?
    requires step.Placed? ==> step.bet.bankroll == run.bankroll + step.bet.payout
    ensures Balanced(initial, Advance(run, step).value)
  {
    if step.Placed? {
      var b := step.bet;
      var bets := run.bets + [b];
      assert Advance(run, step).value == Run(b.bankroll, bets);
      assert bets[..|bets| - 1] == run.bets;
      assert TotalPayout(bets) == TotalPayout(run.bets) + b.payout;
      if run.bets == [] {
        assert bets[0] == b;
      } else {
        assert bets[0] == run.bets[0];
      }
      forall k | 0 < k < |bets|
        ensures bets[k].bankroll == bets[k - 1].bankroll + bets[k].payout
      {
        assert bets[k - 1] == run.bets[k - 1];
        if k < |bets| - 1 {
          assert bets[k] == run.bets[k];
        }
      }
    }
  }

  /**
   * Accounting: the ledger chains bankroll to bankroll, the current bankroll
   * is the initial one plus every payout, and the last row holds it.
   */
  lemma {:induction false} Accounting(games: seq<PredictedGame>, n: nat, cfg: Config, hasOdds: bool)
    requires n <= |games| && Replay(games, n, cfg, hasOdds).Some?
    ensures Balanced(cfg.initialBankroll, Replay(games, n, cfg, hasOdds).value)
  {
    if n > 0 {
      var run := Replay(games, n - 1, cfg, hasOdds).value;
      Accounting(games, n - 1, cfg, hasOdds);
      var step := Settle(run.bankroll, games[n - 1], cfg, hasOdds);
      if step.Placed? {
        Settlement(run.bankroll, games[n - 1], cfg, hasOdds);
      }
      AdvanceBalanced(cfg.initialBankroll, run, step);
    }
  }

  /** The ledger row game `g` adds carries that game's date and teams. */
  predicate BetFrom(b: Bet, g: PredictedGame)
  {
    b.date == g.date && b.home == g.home && b.away == g.away && (b.pick == g.home || b.pick == g.away)
  }

  /**
   * The ledger only grows at its end, by at most one row per game, and that
   * row comes from the game just played: one row per bet, in game order.
   */
  lemma LedgerStep(games: seq<PredictedGame>, n: nat, cfg: Config, hasOdds: bool)
    requires n < |games| && Replay(games, n + 1, cfg, hasOdds).Some?
    ensures Replay(games, n, cfg, hasOdds).Some?
    ensures var before := Replay(games, n, cfg, hasOdds).value.bets;
            var after := Replay(games, n + 1, cfg, hasOdds).value.bets;
            && before <= after && |after| <= |before| + 1
            && (|after| == |before| + 1 ==> BetFrom(after[|before|], games[n]))
  {
  }

  /** `next` is `prev` after one game: it exists only if `prev` does, and extends its ledger by at most one row. */
  predicate GrowsByAtMostOne(prev: Option<Run>, next: Option<Run>)
  {
    next.Some? ==> prev.Some? && prev.value.bets <= next.value.bets && |next.value.bets| <= |prev.value.bets| + 1
  }

  /** Along a chain of runs that each grow by at most one row, run `n` is a prefix of run `m` with at most `m - n` fewer rows. */
  lemma {:induction false} ChainGrowth(runs: seq<Option<Run>>, n: nat, m: nat)
    requires n <= m < |runs| && runs[m].Some?
    requires forall k :: 0 <= k < |runs| - 1 ==> GrowsByAtMostOne(runs[k], runs[k + 1])
    ensures runs[n].Some? && runs[n].value.bets <= runs[m].value.bets
    ensures |runs[m].value.bets| - |runs[n].value.bets| <= m - n
    decreases m - n
  {
    if n < m {
      assert GrowsByAtMostOne(runs[m - 1], runs[m]);
      ChainGrowth(runs, n, m - 1);
      var early, mid, late := runs[n].value.bets, runs[m - 1].value.bets, runs[m].value.bets;
      assert late[..|early|] == mid[..|early|];
    }
  }

  /** The ledger never has more rows than games were played, and an earlier ledger is a prefix of a later one. */
  lemma LedgerPrefix(games: seq<PredictedGame>, n: nat, m: nat, cfg: Config, hasOdds: bool)
    requires n <= m <= |games| && Replay(games, m, cfg, hasOdds).Some?
    ensures Replay(games, n, cfg, hasOdds).Some?
    ensures Replay(games, n, cfg, hasOdds).value.bets <= Replay(games, m, cfg, hasOdds).value.bets
    ensures |Replay(games, m, cfg, hasOdds).value.bets| - |Replay(games, n, cfg, hasOdds).value.bets| <= m - n
  {
    var runs := seq(|games| + 1, k requires 0 <= k <= |games| => Replay(games, k, cfg, hasOdds));
    forall k | 0 <= k < |runs| - 1
      ensures GrowsByAtMostOne(runs[k], runs[k + 1])
    {
      if runs[k + 1].Some? {
        LedgerStep(games, k, cfg, hasOdds);
      }
    }
    ChainGrowth(runs, n, m);
  }

  /** The figures `_print_summary` reports for a non-empty ledger. */
  datatype Summary = Summary(
    totalBets: nat,
    wins: nat,
    losses: int,
    finalBankroll: int,  // cents
    roi: real,
    peak: int,           // cents
    trough: int,         // cents
    maxDrawdown: int,    // cents
    avgEdge: real,
    avgBetFraction: real
  )

  function CountWins(bets: seq<Bet>): (w: nat)
    ensures w <= |bets|
  {
    if bets == [] then 0 else CountWins(bets[..|bets| - 1]) + (if bets[|bets| - 1].won then 1 else 0)
  }

  /** The largest bankroll of a non-empty ledger. */
  function PeakBankroll(bets: seq<Bet>): (m: int)
    requires bets != []
    ensures forall k :: 0 <= k < |bets| ==> bets[k].bankroll <= m
    ensures exists k :: 0 <= k < |bets| && bets[k].bankroll == m
  {
    if |bets| == 1 then bets[0].bankroll
    else
      var m := PeakBankroll(bets[..|bets| - 1]);
      assert forall k :: 0 <= k < |bets| - 1 ==> bets[..|bets| - 1][k] == bets[k];
      if bets[|bets| - 1].bankroll > m then bets[|bets| - 1].bankroll else m
  }

  /** The smallest bankroll of a non-empty ledger. */
  function TroughBankroll(bets: seq<Bet>): (m: int)
    requires bets != []
    ensures forall k :: 0 <= k < |bets| ==> m <= bets[k].bankroll
    ensures exists k :: 0 <= k < |bets| && bets[k].bankroll == m
  {
    if |bets| == 1 then bets[0].bankroll
    else
      var m := TroughBankroll(bets[..|bets| - 1]);
      assert forall k :: 0 <= k < |bets| - 1 ==> bets[..|bets| - 1][k] == bets[k];
      if bets[|bets| - 1].bankroll < m then bets[|bets| - 1].bankroll else m
  }

  function SumEdges(bets: seq<Bet>): real
  {
    if bets == [] then 0.0 else SumEdges(bets[..|bets| - 1]) + bets[|bets| - 1].edge
  }

  function SumBetFractions(bets: seq<Bet>): real
  {
    if bets == [] then 0.0 else SumBetFractions(bets[..|bets| - 1]) + bets[|bets| - 1].betFraction
  }

  /**
   * `_print_summary`'s figures.  Python divides by the number of bets and by
   * the initial bankroll, so the ledger must be non-empty (the caller checks)
   * and the initial bankroll nonzero.
   */
  function Summarise(bets: seq<Bet>, initial: int): (s: Summary)
    requires bets != [] && initial != 0
    ensures s.totalBets == |bets| && s.wins + s.losses == s.totalBets && 0 <= s.losses <= s.totalBets
    ensures s.finalBankroll == bets[|bets| - 1].bankroll
    ensures s.roi * initial as real == (s.finalBankroll - initial) as real
    ensures s.trough <= s.finalBankroll <= s.peak
    ensures s.maxDrawdown == initial - s.trough && s.maxDrawdown >= initial - s.finalBankroll
    ensures forall k :: 0 <= k < |bets| ==> s.trough <= bets[k].bankroll <= s.peak
    ensures (exists k :: 0 <= k < |bets| && bets[k].bankroll == s.peak)
            && (exists k :: 0 <= k < |bets| && bets[k].bankroll == s.trough)
    ensures s.wins == CountWins(bets)
    ensures s.avgEdge * |bets| as real == SumEdges(bets)
    ensures s.avgBetFraction * |bets| as real == SumBetFractions(bets)
  {
    var total := |bets|;
    var wins := CountWins(bets);
    var final := bets[|bets| - 1].bankroll;
    var trough := TroughBankroll(bets);
    QuotientTimesDivisor((final - initial) as real, initial as real);
    QuotientTimesDivisor(SumEdges(bets), total as real);
    QuotientTimesDivisor(SumBetFractions(bets), total as real);
    Summary(total, wins, total - wins, final, (final - initial) as real / initial as real,
            PeakBankroll(bets), trough, initial - trough,
            SumEdges(bets) / total as real, SumBetFractions(bets) / total as real)
  }

  lemma QuotientTimesDivisor(x: real, y: real)
    requires y != 0.0
    ensures (x / y) * y == x
  {
  }

  /**
   * For the ledger of a run: the final bankroll of the summary is the run's
   * bankroll, the initial bankroll plus every payout, and the drawdown is
   * measured from the initial bankroll, which is not itself in the minimum.
   */
  lemma SummaryOfRun(games: seq<PredictedGame>, cfg: Config, hasOdds: bool)
    requires Replay(games, |games|, cfg, hasOdds).Some?
    requires Replay(games, |games|, cfg, hasOdds).value.bets != [] && cfg.initialBankroll != 0
    ensures var run := Replay(games, |games|, cfg, hasOdds).value;
            var s := Summarise(run.bets, cfg.initialBankroll);
            && s.finalBankroll == run.bankroll == cfg.initialBankroll + TotalPayout(run.bets)
            && s.wins == CountWins(run.bets) && s.totalBets <= |games|
            && s.maxDrawdown == cfg.initialBankroll - TroughBankroll(run.bets)
            && (exists k :: 0 <= k < |run.bets| && run.bets[k].bankroll == cfg.initialBankroll - s.maxDrawdown)
  {
    Accounting(games, |games|, cfg, hasOdds);
    LedgerPrefix(games, 0, |games|, cfg, hasOdds);
  }
}
