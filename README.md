# charliehustle core, modelled in Dafny

charliehustle predicts baseball games and replays betting strategies over them.
This project models the arithmetic core of the repository:

- **Odds and Kelly sizing** (`odds.dfy`, `kelly.dfy`).
  - The four converters between American odds, decimal odds and implied probability, with their exact round trips.
  - The Kelly criterion and its scaled, capped variant.
- **Feature passes** (`features_elo.dfy`, `features_rolling.dfy`, `features_rest.dfy`, `features_matrix.dfy`).
  - Each of the three passes is an imperative method over a date-ordered `seq<Game>`: ELO ratings, rolling team form, and rest days.
  - Each method is proved equal, row by row, to a recursive specification of "the state after the earlier games".
  - The properties of the feature matrix are proved about those specifications. They cover snapshot-before-update, zero-sum rating changes, no look-ahead, window averages, and the rest-day cap. The matrix keeps exactly the rows with enough history.
- **Backtest** (`backtest.dfy`). The single-bankroll betting engine, as a loop (`RunBacktest`) proved equal to a replay function.
  - Each game goes through pick side, odds, fractional Kelly, the edge and one-dollar thresholds, settlement, and the ledger row.
  - The accounting identities are proved: each row chains to the previous one, and the bankroll equals the initial bankroll plus every payout.
  - Also proved: a skip changes nothing, and the ledger grows by at most one row per game.
  - The summary figures are covered as well.
- **Legacy scripts** (`legacy_pick.dfy`, `legacy_simulate.dfy`).
  - The four comparison pick rules.
  - The older multi-strategy replay, as a class `Simulation` whose fields are the script's module globals.

Shared pieces: `config.dfy` holds the configuration defaults and the game record. `money.dfy` holds the cents rounding rule.

Modelling conventions:

- **Money** is in integer cents. Python's `round(x, 2)` on dollars becomes `Money.RoundHalfEven` of the exact number of cents: nearest integer, ties to even. `round(x, 4)` becomes `Money.Round4`.
- **Probabilities and odds** are `real`. Binary floating point is not modelled.
- **Powers.** `10 ** x` and `x ** 1.83` have no closed form over the reals. The passes take them as function parameters, `pow10` and `pyth`. The model relies only on what `Elo.PositivePower` and `RollingForm.ValidPythPower` state: positive values, and `pyth(0) == 0`.
- **Division by zero.** Where Python would raise `ZeroDivisionError`:
  - the pure converters have a `requires` that excludes exactly the raising inputs;
  - the backtest returns `None` for the whole run (`Backtest.Replay`, `Backtest.CrashIsFinal`).
- **Dates** are integer day numbers.
- **Teams** are strings. A game whose home and away team are the same is allowed, as in the source. In that case every pass follows the source's order: the home side is read and updated first, then the away side.

## Model

| member | source | states |
|---|---|---|
| Money.RoundHalfEven | src/charliehustle/betting/simulate.py:69 | `round(x, 2)` in cents: within half a cent of the exact amount, and an exact tie goes to the even neighbour |
| Money.RoundExact | src/charliehustle/betting/simulate.py:84 | rounding a whole number of cents leaves it unchanged, so `round(bankroll + payout, 2)` is the plain sum in cents |
| Money.RoundMonotone | src/charliehustle/betting/simulate.py:69 | rounding to the cent never reverses the order of two amounts |
| Money.RoundNonNegative | src/charliehustle/betting/simulate.py:80 | a non-negative amount rounds to a non-negative number of cents |
| Money.RoundAtMost | src/charliehustle/betting/simulate.py:69 | an amount of at most `n` cents rounds to at most `n` cents |
| Money.RoundWithin | src/charliehustle/betting/simulate.py:69 | an amount between 0 and `n` cents rounds to between 0 and `n` cents |
| Money.ShareWithin | src/charliehustle/betting/simulate.py:69 | a non-negative amount times a fraction in [0, 1] lies between 0 and the amount |
| Money.RoundedShareWithin | simulate.py:41 | a non-negative amount times a fraction in [0, 1], rounded to the cent, lies between 0 and the amount |
| Money.RoundedProductNonNegative | src/charliehustle/betting/simulate.py:80 | the product of two non-negative factors rounds to a non-negative number of cents |
| Money.Round4 | src/charliehustle/betting/simulate.py:92-95 | `round(x, 4)` of the ledger's display columns is within 0.00005 of `x` |
| Money.Round4Monotone | src/charliehustle/betting/simulate.py:92-95 | `round(x, 4)` preserves order |
| Odds.AmericanToDecimal | src/charliehustle/betting/odds.py:11-13 | defined for every nonzero line (zero divides by zero), and the decimal odds are always above 1 |
| Odds.DecimalToAmerican | src/charliehustle/betting/odds.py:18-20 | defined except at decimal 1; decimal odds of at least 2 give a line of at least +100, odds in (1, 2) a line below -100 |
| Odds.AmericanToImpliedProb | src/charliehustle/betting/odds.py:30-32 | total; a nonzero line gives a probability strictly inside (0, 1), a zero line gives 1 |
| Odds.ImpliedProbToAmerican | src/charliehustle/betting/odds.py:37-39 | undefined exactly at probabilities 0 and 1; a probability in [0.5, 1) gives a line of at most -100, one in (0, 0.5) a line above +100 |
| Odds.DecimalRoundTrip | src/charliehustle/betting/odds.py:11-20 | American to decimal and back is exact if and only if the line is at least +100 or below -100; -100 comes back as +100 |
| Odds.AmericanRoundTrip | src/charliehustle/betting/odds.py:11-20 | every decimal odds above 1 converts to a nonzero line that converts back to exactly the same decimal odds |
| Odds.ImpliedProbRoundTrip | src/charliehustle/betting/odds.py:30-39 | probability to American odds and back is exact for every probability strictly inside (0, 1) |
| Odds.ImpliedProbIsReciprocal | src/charliehustle/betting/odds.py:11-32 | for a nonzero line the implied probability is the reciprocal of the decimal odds |
| Odds.FairDecimalOdds | src/charliehustle/betting/odds.py:11-39 | chaining probability to American to decimal gives the fair odds `1 / p` |
| Odds.OddsExamples | tests/test_odds.py:14-38 | the values the repository's tests check: +150 gives 2.5, +100 gives 2.0, -150 gives 5/3, 2.5 gives +150, 1.5 gives -200, -150 gives 0.6, +150 gives 0.4 |
| Kelly.NetEdge | src/charliehustle/betting/kelly.py:14-16 | the edge `p (d-1) - (1-p)` is `p d - 1`: the expected return of one unit staked, less the stake |
| Kelly.KellyCriterion | src/charliehustle/betting/kelly.py:14-21 | exactly 0 when the edge `p(d-1) - (1-p)` is not positive, otherwise the fraction `f` with `f (d-1) == edge`; raises only for odds 1 with `p > 1` |
| Kelly.KellyBounds | src/charliehustle/betting/kelly.py:14-21 | for `p` in [0, 1] the fraction lies in [0, p], and it is positive if and only if the edge is |
| Kelly.FractionalKelly | src/charliehustle/betting/kelly.py:35-36 | never above `max_bet`, never above the scaled Kelly fraction, and equal to one of the two |
| Kelly.NoEdgeNoBet | src/charliehustle/betting/kelly.py:35-36 | with no edge and a non-negative cap, the fractional Kelly is 0 |
| Kelly.BelowCapIsScaled | src/charliehustle/betting/kelly.py:35-36 | below the cap, the fractional Kelly is exactly the Kelly fraction times `fraction` |
| Kelly.FractionalKellyMonotone | src/charliehustle/betting/kelly.py:35-36 | for `p` in [0, 1], a larger non-negative safety fraction never gives a smaller bet |
| Kelly.KellyExamples | tests/test_odds.py:56-82 | the values the repository's tests check: no edge gives 0, (0.55, 2.0) gives 0.1, (0.8, 2.0) is above 0.5, and the cap of 0.05 applies |
| GameRecords.TeamsOf | src/charliehustle/data/features.py:41 | every home and away team of the input is in the team set |
| GameRecords.TeamsOfExactly | src/charliehustle/data/features.py:41 | a team is in the team set if and only if it plays in some game: the set holds no other team |
| Elo.ExpectedHome | src/charliehustle/data/features.py:56 | the expected home score is strictly inside (0, 1) for any positive power function |
| Elo.Update | src/charliehustle/data/features.py:59-62 | one game's update changes no key set: home first, then away |
| Elo.RatingsAfter | src/charliehustle/data/features.py:48-62 | the ratings after a run of games keep the starting key set |
| Elo.InitialRatings | src/charliehustle/data/features.py:41-42 | every team of the input, and no other, starts at the configured mean |
| Elo.RowAt | src/charliehustle/data/features.py:48-57 | row `i` records the two pre-game ratings and, as its home expectation, the expected home score of exactly those ratings, strictly inside (0, 1) |
| Elo.PlayGame | src/charliehustle/data/features.py:49-62 | the loop body reads both pre-game ratings and the expected home score, then performs exactly the `Update` of the game |
| Elo.ComputeEloRatings | src/charliehustle/data/features.py:37-68 | row `i` is the pair of ratings after games `0..i-1` and the home expectation they give, strictly inside (0, 1) |
| Elo.UnseenTeamKeepsRating | src/charliehustle/data/features.py:42-62 | a team that has not played keeps its starting rating |
| Elo.FirstGameAtMean | src/charliehustle/data/features.py:42-53 | a team's first game records the configured mean as its rating |
| Elo.UpdateIsZeroSum | src/charliehustle/data/features.py:61-62 | for distinct teams, the home change is minus the away change, and no other team's rating moves |
| Elo.ResultMovesRatings | src/charliehustle/data/features.py:60-62 | with `k > 0`, a home win strictly raises the home rating and lowers the away rating; a home loss does the opposite |
| Elo.TotalPreserved | src/charliehustle/data/features.py:61-62 | without self-games, the sum of all ratings is the same after any run of games |
| Elo.TotalIsTeamsTimesMean | src/charliehustle/data/features.py:41-62 | without self-games, the ratings before every game sum to the number of teams times the mean |
| Elo.RatingsDependOnPlayedTeams | src/charliehustle/data/features.py:48-62 | a team's rating after a run of games depends only on the starting ratings of the teams that played and its own |
| Elo.NoLookAhead | src/charliehustle/data/features.py:48-57 | a game's ELO row is the same for any two inputs that agree up to and including that game |
| RollingForm.Recent | src/charliehustle/data/features.py:128 | `history[-window:]` is a suffix of the history: all of it for a window of 0 or at least its length, otherwise exactly `window` entries |
| RollingForm.Wins | src/charliehustle/data/features.py:129 | the number of won entries never exceeds the number of entries |
| RollingForm.RunsScored | src/charliehustle/data/features.py:130 | the runs scored over a window are at least those of any one entry in it |
| RollingForm.RunsAllowed | src/charliehustle/data/features.py:131 | the runs allowed over a window are at least those of any one entry in it |
| RollingForm.Pythagorean | src/charliehustle/data/features.py:137-140 | the Pythagorean expectation is in [0, 1]: 0.5 with no runs, 1 with no runs allowed, 0 with no runs scored |
| RollingForm.FormOf | src/charliehustle/data/features.py:119-142 | games played is the full history length; an empty history gives the defaults (0.5, 0, 0.5, 0); win pct and Pythagorean pct are in [0, 1] |
| RollingForm.FormRowAt | src/charliehustle/data/features.py:118-142 | both sides' win pct and Pythagorean pct are in [0, 1]; the home side's games played is its number of earlier appearances, the away side's also counts this game's home side when a team plays itself |
| RollingForm.BuildLogs | src/charliehustle/data/features.py:80-98 | the first pass leaves every team's log as its entries over all games, home entry before away entry |
| RollingForm.EmptyLogs | src/charliehustle/data/features.py:80 | one empty log per team |
| RollingForm.AppendGame | src/charliehustle/data/features.py:84-98 | one game of the first pass appends exactly that game's entries to each team's log |
| RollingForm.StartSecondPass | src/charliehustle/data/features.py:101-102 | the second pass starts with every index at 0 and every history empty, which are the logs before the first game |
| RollingForm.AfterGame | src/charliehustle/data/features.py:144-147 | after one game every team's history is extended by exactly that game's entries for the team, and the key set is kept |
| RollingForm.IndexesAfterGame | src/charliehustle/data/features.py:147 | after one game every team's index advances by the number of sides it played in that game, and the key set is kept |
| RollingForm.Observe | src/charliehustle/data/features.py:118-147 | one side reads its form from the history, then appends the log entry at its index and advances the index |
| RollingForm.ObserveGame | src/charliehustle/data/features.py:115-147 | one game of the second pass yields the game's form row and keeps histories equal to the logs before the next game |
| RollingForm.ComputeTeamRollingStats | src/charliehustle/data/features.py:79-153 | row `i` holds the form of each team over its log before game `i` (windowed) |
| RollingForm.SecondPassStep | src/charliehustle/data/features.py:145 | before game `i`, the entry at each team's index in the full log is this game's own entry |
| RollingForm.LogLength | src/charliehustle/data/features.py:83-98 | a team's log has one entry per side it played |
| RollingForm.FirstGameDefaults | src/charliehustle/data/features.py:122-126 | a team without earlier games gets win pct 0.5, run differential 0, Pythagorean 0.5 and 0 games played |
| RollingForm.HomeEntryFollows | src/charliehustle/data/features.py:119-147 | the home history (`HomeHistory`) followed by the game's home entry is a prefix of the home team's log after the game |
| RollingForm.AwayEntryFollows | src/charliehustle/data/features.py:119-147 | the away history (`AwayHistory`) followed by the game's away entry is exactly the away team's log after the game |
| RollingForm.HistoryIsStrictPrefix | src/charliehustle/data/features.py:144-147 | each history plus the current game's own entry is a prefix of the team's full log, so the game is appended only after its features are read |
| RollingForm.NoLookAhead | src/charliehustle/data/features.py:115-147 | a game's form row is the same for any two inputs that agree up to and including that game |
| RollingForm.WindowIgnoresOlderGames | src/charliehustle/data/features.py:128-141 | two histories that end in the same `window` entries give the same rates |
| RollingForm.FormIsWindowAverage | src/charliehustle/data/features.py:128-141 | the rates are averages over the last `min(n, window)` entries (all entries for a window of 0) |
| RestDays.Stamp | src/charliehustle/data/features.py:167-172 | one side reads the capped days since the team's last date (3 if it has none), then records the game's date |
| RestDays.Rest | src/charliehustle/data/features.py:167-171 | the rest is at most 7 days, at most the days since the team's last date, and exactly 3 when the team has none |
| RestDays.LastDates | src/charliehustle/data/features.py:158-172 | after the first `n` games every team of those games has a last date |
| RestDays.ComputeRestDays | src/charliehustle/data/features.py:158-177 | row `i` holds both teams' rest as read from the last dates after games `0..i-1` (and the home stamp for the away side) |
| RestDays.DatedIffSeen | src/charliehustle/data/features.py:167 | a team has a last date if and only if it played an earlier game |
| RestDays.LastDateIsPreviousGame | src/charliehustle/data/features.py:167-172 | a team's last date is the date of its most recent earlier game |
| RestDays.FirstGameRest | src/charliehustle/data/features.py:170-171 | a team's first game gets 3 days of rest |
| RestDays.RestIsDaysSincePreviousGame | src/charliehustle/data/features.py:167-169 | otherwise the rest is `min(days since its previous game, 7)` |
| RestDays.RestRowAt | src/charliehustle/data/features.py:166-172 | both rests of a game are at most 7 days; a team that plays itself rests 0 days on its away side |
| RestDays.RestExamples | tests/test_features.py:87-121 | the repository's rest tests: openers get 3, consecutive days give 1, a 19-day gap is capped at 7 |
| FeatureMatrix.KeepEnough | src/charliehustle/data/features.py:196-200 | the filter keeps exactly the rows where both teams have played at least `rolling_window` games |
| FeatureMatrix.Enough | src/charliehustle/data/features.py:196-200 | with a window of 0 every row has enough history |
| FeatureMatrix.KeepEnoughDistributes | src/charliehustle/data/features.py:196-200 | filtering a concatenation filters each part, so kept rows keep their input order |
| FeatureMatrix.KeepEnoughIdempotent | src/charliehustle/data/features.py:196-200 | filtering twice is filtering once |
| FeatureMatrix.ZeroWindowKeepsAll | src/charliehustle/data/features.py:196-200 | with a window of 0 no row is dropped |
| FeatureMatrix.AllRows | src/charliehustle/data/features.py:191-193 | row `i` of the chained passes is game `i` with its ELO, form and rest rows |
| FeatureMatrix.FeatureRowAt | src/charliehustle/data/features.py:191-193 | row `i` is game `i`, with a home expectation strictly inside (0, 1), win pcts in [0, 1] and rests of at most 7 days |
| FeatureMatrix.BuildFeatureMatrix | src/charliehustle/data/features.py:180-205 | the matrix is the chained passes' rows, filtered for enough history |
| FeatureMatrix.KeptIffEnoughHistory | src/charliehustle/data/features.py:196-200 | a game is in the matrix if and only if both teams have at least `rolling_window` earlier appearances |
| Backtest.PickSide | src/charliehustle/betting/simulate.py:35-42 | the home side is picked if and only if `p >= 0.5`, and the pick probability is `max(p, 1 - p) >= 0.5` |
| Backtest.PickOdds | src/charliehustle/betting/simulate.py:45-53 | the odds, when defined, are positive |
| Backtest.Edge | src/charliehustle/betting/simulate.py:64-65 | at positive odds the edge `pick_prob - 1 / odds` is positive exactly when the Kelly net edge `pick_prob * odds - 1` is |
| Backtest.EdgeSign | src/charliehustle/betting/simulate.py:64-65 | for positive odds, `p - 1 / d > 0` exactly when `p d > 1` |
| Backtest.Stake | src/charliehustle/betting/simulate.py:69 | a bet fraction in [0, 1] of a non-negative bankroll stakes between 0 and the bankroll |
| Backtest.Winner | src/charliehustle/betting/simulate.py:74-76 | the winner is one of the two teams; for distinct teams it is the home team exactly when the home side won |
| Backtest.WinPayout | src/charliehustle/betting/simulate.py:79-80 | a non-negative stake at odds of at least 1 wins a non-negative payout |
| Backtest.Wager | src/charliehustle/betting/simulate.py:63-101 | a quoted game never raises; it is bet exactly when the edge reaches the minimum and the stake reaches one dollar, and the bet stakes `Stake` and moves the bankroll by its payout |
| Backtest.Settle | src/charliehustle/betting/simulate.py:30-101 | a game raises exactly when it cannot be quoted |
| Backtest.Advance | src/charliehustle/betting/simulate.py:84-101 | only a raising game ends the run; otherwise the ledger is kept as a prefix and grows by at most one row |
| Backtest.Replay | src/charliehustle/betting/simulate.py:25-101 | the ledger after `n` games has at most `n` rows |
| Backtest.LedgerOf | src/charliehustle/betting/simulate.py:28-103 | the run has a ledger exactly when no game raised, and it is the run's list of bets |
| Backtest.QuoteOf | src/charliehustle/betting/simulate.py:31-65 | raises exactly when the odds or Kelly divide by zero; otherwise the bet fraction is at most `max_bet_fraction` and the edge is `pick_prob - 1 / odds` |
| Backtest.QuoteGame | src/charliehustle/betting/simulate.py:31-65 | the first half of the loop body computes exactly `QuoteOf` |
| Backtest.PlaceBet | src/charliehustle/betting/simulate.py:66-101 | the second half computes exactly `Wager`: the thresholds, the settlement and the ledger row |
| Backtest.RunBacktest | src/charliehustle/betting/simulate.py:25-101 | the loop's ledger is the ledger of the replay specification, or none if a game raises |
| Backtest.CrashIsFinal | src/charliehustle/betting/simulate.py:30-101 | once a game raises, the run has no ledger |
| Backtest.SynthesisedOdds | src/charliehustle/betting/simulate.py:50-53 | without lines, the odds are `0.95 / (1 - pick_prob)`, at least 1.9, for `p` strictly inside (0, 1); they raise exactly for `p` equal to 0 or 1 |
| Backtest.OddsAboveEven | src/charliehustle/betting/simulate.py:45-53 | the decimal odds are above 1 |
| Backtest.SkipChangesNothing | src/charliehustle/betting/simulate.py:63-71 | below the minimum edge, or with a stake under one dollar, neither the bankroll nor the ledger changes |
| Backtest.PlacedOnlyWithEdge | src/charliehustle/betting/simulate.py:63-71 | a placed bet has at least the minimum edge and a stake of `round(bankroll * bet_fraction, 2) >= 1.00` |
| Backtest.StakeWithinBankroll | src/charliehustle/betting/simulate.py:56-69 | with `max_bet_fraction <= 1`, no bet exceeds a non-negative bankroll |
| Backtest.StakeAtMost | src/charliehustle/betting/simulate.py:69 | a stake fraction of at most 1 stakes at most the bankroll |
| Backtest.Settlement | src/charliehustle/betting/simulate.py:74-84 | a lost bet pays minus the stake; the new bankroll is the old one plus the payout; the bet is won if and only if the pick is the winner (for distinct teams: if and only if the favoured side won) |
| Backtest.WonBetPaysOut | src/charliehustle/betting/simulate.py:79-80 | a won bet pays a non-negative amount |
| Backtest.AdvanceBalanced | src/charliehustle/betting/simulate.py:84-101 | appending a row whose bankroll is the previous one plus its payout keeps the ledger balanced |
| Backtest.Accounting | src/charliehustle/betting/simulate.py:25-101 | each row's bankroll is the previous row's (the initial bankroll first) plus its payout, and the bankroll is the initial one plus every payout |
| Backtest.LedgerStep | src/charliehustle/betting/simulate.py:86-101 | one game grows the ledger only at its end, by at most one row, and that row carries the game's date and teams |
| Backtest.ChainGrowth | src/charliehustle/betting/simulate.py:86-101 | along any chain of runs that each grow by at most one row, an earlier run is a prefix of a later one with at most one row per step between them |
| Backtest.LedgerPrefix | src/charliehustle/betting/simulate.py:30-101 | earlier ledgers are prefixes of later ones, with at most one row per game |
| Backtest.CountWins | src/charliehustle/betting/simulate.py:116 | wins never exceed the number of bets |
| Backtest.PeakBankroll | src/charliehustle/betting/simulate.py:121 | the peak is the largest row bankroll, and it is attained |
| Backtest.TroughBankroll | src/charliehustle/betting/simulate.py:122 | the trough is the smallest row bankroll, and it is attained |
| Backtest.Summarise | src/charliehustle/betting/simulate.py:115-136 | wins are the won rows and wins plus losses is the total; ROI times initial is the gain; the peak and the trough are the largest and smallest row bankrolls, both attained, and trough ≤ final ≤ peak; max drawdown is initial minus trough (the initial bankroll is not in the minimum); the average edge and the average bet fraction are the means |
| Backtest.SummaryOfRun | src/charliehustle/betting/simulate.py:105-123 | the summary's final bankroll is the run's, the initial bankroll plus every payout, over at most one bet per game; its max drawdown is the initial bankroll less the lowest row bankroll, which some row reaches |
| LegacyPicks.BasedOnPreEloRating | pick.py:1-4 | picks one of the two teams, with confidence 0.01 |
| LegacyPicks.BasedOnPreEloRatingContrarian | pick.py:6-9 | picks one of the two teams, with confidence 0.01 |
| LegacyPicks.BasedOnPythagoreanExpectedWinPct | pick.py:11-14 | picks one of the two teams, with confidence 0.01 |
| LegacyPicks.BasedOnPythagoreanExpectedWinPctPlusHomeTeamAdvantage | pick.py:16-21 | picks one of the two teams, with confidence 0.01 |
| LegacyPicks.Apply | simulate.py:37 | every strategy returns one of the two teams and a confidence in [0, 1] |
| LegacyPicks.PreEloPicksHomeIff | pick.py:2 | backs home if and only if its pre-game rating is at least the away rating |
| LegacyPicks.ContrarianOpposesOnlyOffTies | pick.py:2-7 | backs home if and only if its rating is at most the away rating; on a tie both rules back home, otherwise they disagree |
| LegacyPicks.PythagoreanPicksHomeIff | pick.py:12 | backs home if and only if its expected win pct is at least the away one |
| LegacyPicks.HomeAdvantageNeedsLead | pick.py:17-19 | backs home if and only if its expected win pct leads by at least 0.08, and then the plain rule backs home too |
| LegacyReplay.ConvertLineToMultiplier | simulate.py:58-61 | agrees with `american_to_decimal` and is above 1 for every nonzero line |
| LegacyReplay.BetAmount | simulate.py:41 | with a confidence in [0, 1], the stake of a non-negative bankroll is between 0 and the bankroll |
| LegacyReplay.NextBankroll | simulate.py:40-48 | with a confidence in [0, 1], a non-negative bankroll stays non-negative after a pick |
| LegacyReplay.Advanced | simulate.py:36-48 | one pick appends exactly one bankroll to the trend and keeps the earlier ones; a non-negative latest bankroll stays non-negative |
| LegacyReplay.SeasonGames | simulate.py:32-35 | every game of every listed season is among the games replayed (their order is `NextSeason`'s) |
| LegacyReplay.ExtendTrend | simulate.py:36-48 | a strategy's trend grows by exactly one value per game and keeps its earlier values |
| LegacyReplay.StepTrends | simulate.py:36-48 | one game keeps the key set and every installed strategy seeded |
| LegacyReplay.ReplayGames | simulate.py:32-48 | a run of games keeps the key set and every installed strategy seeded |
| LegacyReplay.SeasonGamesPlayable | simulate.py:32-34 | the games of seasons with convertible winning lines can all be replayed |
| LegacyReplay.Simulation.constructor | simulate.py:9-12 | the globals start empty, with bankroll 0 |
| LegacyReplay.Simulation.WithBankroll | simulate.py:15-17 | sets the initial bankroll and nothing else |
| LegacyReplay.Simulation.WithData | simulate.py:19-21 | sets the season data and nothing else |
| LegacyReplay.Simulation.WithMethods | simulate.py:23-27 | installs the strategies and seeds each one's trend with the bankroll set before the call; other trends are kept |
| LegacyReplay.Simulation.PlayStrategy | simulate.py:37-48 | one strategy stakes from its latest bankroll, collects on a win, and appends the new bankroll to its own trend only |
| LegacyReplay.Simulation.PlayGame | simulate.py:36-48 | one game appends exactly one value to every strategy's trend, whatever the order of the strategies |
| LegacyReplay.Simulation.PlaySeason | simulate.py:34-48 | a season's games are replayed in order |
| LegacyReplay.Simulation.GamesForSeasons | simulate.py:30-48 | the trends after the call are the replay of every game of every season, in order |
| LegacyReplay.NextSeason | simulate.py:32-33 | the games of one more season are appended after the earlier seasons' games |
| LegacyReplay.ReplayConcat | simulate.py:32-48 | replaying two runs one after the other is replaying their concatenation |
| LegacyReplay.StrategiesIndependent | simulate.py:36-48 | each strategy's trend after a replay is its own trend extended over the games, one value per game; keys without a strategy keep their trend |
| LegacyReplay.LostPick | simulate.py:40-48 | a lost pick loses exactly `round(old * confidence, 2)` |
| LegacyReplay.WonPickNeverLoses | simulate.py:44-48 | a won pick never lowers a non-negative bankroll |
| LegacyReplay.Winnings | simulate.py:46 | the winnings of a won pick, the stake times the winning line's multiplier, are at least a non-negative stake |
| LegacyReplay.ScaledStakeCoversStake | simulate.py:46 | a non-negative stake times a multiplier above 1, rounded half-to-even, is at least the stake |
| LegacyReplay.TrendNeverNegative | simulate.py:36-48 | a trend that starts non-negative never goes negative |

## Left out

- **I/O.** Data loading, scraping, Parquet storage, model training and prediction, the command line, logging, and the printing in `_print_summary` are not modelled. Neither is the plotting in `games_for_seasons`. `model_home_prob` is an input field.
- **Powers.** `10 ** x` and `x ** 1.83` are parameters constrained only by positivity (and `pyth(0) == 0`). No lemma depends on their exact values.
- **Floating point.** Binary floating point is not modelled: amounts are exact cents and probabilities exact reals. Python's `round` on a float that is not exactly representable may round a near-tie differently.
- **Configuration.** `Config.elo_reversion_factor` and `Config.data_dir` are not read by the modelled code and are not modelled.
- **pandas mechanics** (copies, column assignment, `iterrows`) are left out.
  - The legacy replay reads `seasonData.iloc[i]` with the row label `i`. The model assumes the default 0-based index, so label and position agree.
- **Legacy strategies.** The dictionary of pick callables is a `map<string, PickRule>` over the four strategies of `pick.py`. An arbitrary user callable is not modelled.
- **Legacy `pickLine`.** The replay computes `pickLine` but never uses it; the model computes it in `PlayStrategy` and drops it likewise.
- **Missing data.** A missing season key (Python `KeyError`) and a zero winning line (division by zero) are excluded by `GamesForSeasons`'s requirement `PlayableSeasons`, not modelled as a crash.
- Elo.TotalPreserved: stated only for inputs where no team plays itself. With a self-game the away update overwrites the home update, and the total is not preserved.
- Elo.UpdateIsZeroSum: stated only for distinct home and away teams, for the same reason.
- RollingForm.FirstGameDefaults: the away side's defaults are stated only for distinct teams. For a self-game the away side already sees the home entry of the same game.
- RestDays.FirstGameRest: likewise for distinct teams. For a self-game the away side reads the home side's fresh stamp and gets 0 days (`RestDays.RestRowAt`).
- Kelly.KellyBounds: stated for probabilities in [0, 1] only, since the model probability is a probability.
- Backtest.WonBetPaysOut: requires lines, or a model probability in [0, 1]. Synthesised odds from a probability outside [0, 1] can fall below even, and a won bet then pays a negative amount.
- Backtest.StakeWithinBankroll: requires `max_bet_fraction <= 1` and a non-negative bankroll, as the property itself needs.
- **Negative windows.** `rolling_window` is a `nat`. A negative window, which Python would slice differently, is not modelled.
- **Legacy replay amounts** are in cents. `initialBankroll` is a float of dollars in the script.
