/**
 * The feature matrix: the three feature passes chained over the games, then
 * only the games where both teams have a full window of earlier games.
 */
module FeatureMatrix {
  import opened GameRecords
  import opened Configuration
  import Elo
  import RollingForm
  import RestDays

  /** One game with every column the passes attach to it. */
  datatype FeatureRow = FeatureRow(game: Game, elo: Elo.EloRow, form: RollingForm.FormRow, rest: RestDays.RestRow)

  /** Both teams have played at least `minGames` earlier games. */
  predicate Enough(r: FeatureRow, minGames: nat): (b: bool)
    ensures minGames == 0 ==> b
  {
    r.form.home.gamesPlayed >= minGames && r.form.away.gamesPlayed >= minGames
  }

  /** The rows with enough history, in their input order. */
  function KeepEnough(rows: seq<FeatureRow>, minGames: nat): (kept: seq<FeatureRow>)
    ensures |kept| <= |rows|
    ensures forall r :: r in kept <==> r in rows && Enough(r, minGames)
  {
    if rows == [] then []
    else
      var rest := KeepEnough(rows[1..], minGames);
      assert forall r :: r in rows <==> r == rows[0] || r in rows[1..];
      if Enough(rows[0], minGames) then [rows[0]] + rest else rest
  }

  /** Filtering a concatenation filters each part: the kept rows keep their relative order. */
  lemma {:induction false} KeepEnoughDistributes(a: seq<FeatureRow>, b: seq<FeatureRow>, minGames: nat)
    ensures KeepEnough(a + b, minGames) == KeepEnough(a, minGames) + KeepEnough(b, minGames)
  {
    if a == [] {
      assert a + b == b;
    } else {
      assert (a + b)[0] == a[0] && (a + b)[1..] == a[1..] + b;
      KeepEnoughDistributes(a[1..], b, minGames);
    }
  }

  /** Filtering is idempotent. */
  lemma {:induction false} KeepEnoughIdempotent(rows: seq<FeatureRow>, minGames: nat)
    ensures KeepEnough(KeepEnough(rows, minGames), minGames) == KeepEnough(rows, minGames)
  {
    if rows != [] {
      KeepEnoughIdempotent(rows[1..], minGames);
    }
  }

  /** The unfiltered row of game `i`. */
  function FeatureRowAt(games: seq<Game>, i: nat, cfg: Config, pow10: real -> real, pyth: real -> real): (r: FeatureRow)
    requires i < |games| && Elo.PositivePower(pow10) && RollingForm.ValidPythPower(pyth)
    ensures r.game == games[i]
    ensures 0.0 < r.elo.homeProb < 1.0
    ensures 0.0 <= r.form.home.winPct <= 1.0 && 0.0 <= r.form.away.winPct <= 1.0
    ensures r.rest.homeRest <= RestDays.RestCap && r.rest.awayRest <= RestDays.RestCap
  {
    FeatureRow(games[i], Elo.RowAt(games, i, cfg, pow10),
               RollingForm.FormRowAt(games, i, cfg.rollingWindow, pyth), RestDays.RestRowAt(games, i))
  }

  /** Every game with its columns, before the filter. */
  function AllRows(games: seq<Game>, cfg: Config, pow10: real -> real, pyth: real -> real): (rows: seq<FeatureRow>)
    requires Elo.PositivePower(pow10) && RollingForm.ValidPythPower(pyth)
    ensures |rows| == |games|
    ensures forall i :: 0 <= i < |games| ==> rows[i] == FeatureRowAt(games, i, cfg, pow10, pyth)
  {
    seq(|games|, i requires 0 <= i < |games| => FeatureRowAt(games, i, cfg, pow10, pyth))
  }

  /** `build_feature_matrix`: ELO, then rolling form, then rest days, then the history filter. */
  method BuildFeatureMatrix(games: seq<Game>, cfg: Config, pow10: real -> real, pyth: real -> real)
    returns (matrix: seq<FeatureRow>)
    requires Elo.PositivePower(pow10) && RollingForm.ValidPythPower(pyth)
    ensures matrix == KeepEnough(AllRows(games, cfg, pow10, pyth), cfg.rollingWindow)
  {
    var eloRows := Elo.ComputeEloRatings(games, cfg, pow10);
    var formRows := RollingForm.ComputeTeamRollingStats(games, cfg.rollingWindow, pyth);
    var restRows := RestDays.ComputeRestDays(games);
    var all := seq(|games|, i requires 0 <= i < |games| => FeatureRow(games[i], eloRows[i], formRows[i], restRows[i]));
    assert all == AllRows(games, cfg, pow10, pyth);
    matrix := KeepEnough(all, cfg.rollingWindow);
  }

  /**
   * A game is in the matrix exactly when both of its teams have played at
   * least `rollingWindow` earlier games (a team playing itself counts its
   * home side for the away side).
   */
  lemma KeptIffEnoughHistory(games: seq<Game>, i: nat, cfg: Config, pow10: real -> real, pyth: real -> real)
    requires i < |games| && Elo.PositivePower(pow10) && RollingForm.ValidPythPower(pyth)
    ensures var g := games[i];
            FeatureRowAt(games, i, cfg, pow10, pyth) in KeepEnough(AllRows(games, cfg, pow10, pyth), cfg.rollingWindow)
            <==> RollingForm.Appearances(games, i, g.home) >= cfg.rollingWindow
                 && RollingForm.Appearances(games, i, g.away) + (if g.home == g.away then 1 else 0) >= cfg.rollingWindow
  {
    var rows := AllRows(games, cfg, pow10, pyth);
    var r := FeatureRowAt(games, i, cfg, pow10, pyth);
    assert rows[i] == r;
    assert r in KeepEnough(rows, cfg.rollingWindow) <==> Enough(r, cfg.rollingWindow);
    assert r.form == RollingForm.FormRowAt(games, i, cfg.rollingWindow, pyth);
  }

  /** With a window of 0 nothing is dropped. */
  lemma {:induction false} ZeroWindowKeepsAll(rows: seq<FeatureRow>)
    ensures KeepEnough(rows, 0) == rows
  {
    if rows != [] {
      ZeroWindowKeepsAll(rows[1..]);
    }
  }
}
