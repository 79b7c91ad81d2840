/**
 * The ELO rating engine: one rating per team, read and recorded as the
 * game's pre-game features, then updated from the result, game by game in
 * date order.
 *
 * `10 ** x` has no closed form over the reals; the engine takes it as a
 * parameter `pow10`, of which it assumes only that its values are positive.
 */
module Elo {
  import opened GameRecords
  import opened Configuration

  type Ratings = map<Team, real>

  /** The three columns the pass adds to a game. */
  datatype EloRow = EloRow(homeElo: real, awayElo: real, homeProb: real)

  /** What the model relies on of `10 ** x`. */
  ghost predicate PositivePower(pow10: real -> real)
  {
    forall x :: pow10(x) > 0.0
  }

  /** Expected home score with home-field advantage `hfa`: always a probability strictly between 0 and 1. */
  function ExpectedHome(hElo: real, aElo: real, hfa: real, pow10: real -> real): (p: real)
    requires PositivePower(pow10)
    ensures 0.0 < p < 1.0
  {
    var power := pow10((aElo - hElo - hfa) / 400.0);
    assert 1.0 / (1.0 + power) * (1.0 + power) == 1.0;
    1.0 / (1.0 + power)
  }

  function ActualHome(g: Game): real
  {
    if g.homeWin then 1.0 else 0.0
  }

  /** Every team of `gs` has a rating in `elo`. */
  predicate Covers(elo: Ratings, gs: seq<Game>)
  {
    forall i :: 0 <= i < |gs| ==> gs[i].home in elo && gs[i].away in elo
  }

  /** The rating update of one game: home first, then away (which wins if they are the same team). */
  function Update(elo: Ratings, g: Game, cfg: Config, pow10: real -> real): (r: Ratings)
    requires g.home in elo && g.away in elo
    requires PositivePower(pow10)
    ensures r.Keys == elo.Keys
  {
    var hElo, aElo := elo[g.home], elo[g.away];
    var expHome := ExpectedHome(hElo, aElo, cfg.eloHomeAdvantage, pow10);
    var actualHome := ActualHome(g);
    elo[g.home := hElo + cfg.eloK * (actualHome - expHome)]
       [g.away := aElo + cfg.eloK * ((1.0 - actualHome) - (1.0 - expHome))]
  }

  /** The ratings after the games of `gs`, in order, starting from `elo`. */
  function RatingsAfter(elo: Ratings, gs: seq<Game>, cfg: Config, pow10: real -> real): (r: Ratings)
    requires Covers(elo, gs) && PositivePower(pow10)
    ensures r.Keys == elo.Keys
    decreases |gs|
  {
    if gs == [] then elo
    else
      var prefix := gs[..|gs| - 1];
      assert Covers(elo, prefix) by {
        forall i | 0 <= i < |prefix| ensures prefix[i] == gs[i] { }
      }
      Update(RatingsAfter(elo, prefix, cfg, pow10), gs[|gs| - 1], cfg, pow10)
  }

  /** Every team of the input starts at the configured mean. */
  function InitialRatings(games: seq<Game>, mean: real): (elo: Ratings)
    ensures elo.Keys == TeamsOf(games)
    ensures forall t :: t in elo ==> elo[t] == mean
  {
    map t | t in TeamsOf(games) :: mean
  }

  lemma InitialCoversPrefix(games: seq<Game>, mean: real, i: nat)
    requires i <= |games|
    ensures Covers(InitialRatings(games, mean), games[..i])
  {
    forall j | 0 <= j < i ensures games[..i][j] == games[j] { }
  }

  /** The features of game `i`: the ratings after the games before it, and the home win expectation they give. */
  function RowAt(games: seq<Game>, i: nat, cfg: Config, pow10: real -> real): (r: EloRow)
    requires i < |games| && PositivePower(pow10)
    ensures 0.0 < r.homeProb < 1.0
    ensures r.homeProb == ExpectedHome(r.homeElo, r.awayElo, cfg.eloHomeAdvantage, pow10)
  {
    InitialCoversPrefix(games, cfg.eloMean, i);
    var elo := RatingsAfter(InitialRatings(games, cfg.eloMean), games[..i], cfg, pow10);
    var g := games[i];
    EloRow(elo[g.home], elo[g.away], ExpectedHome(elo[g.home], elo[g.away], cfg.eloHomeAdvantage, pow10))
  }

  /** The rows of the first `n` games. */
  ghost function RowsBefore(games: seq<Game>, n: nat, cfg: Config, pow10: real -> real): (rows: seq<EloRow>)
    requires n <= |games| && PositivePower(pow10)
    ensures |rows| == n
    ensures forall j :: 0 <= j < n ==> rows[j] == RowAt(games, j, cfg, pow10)
  {
    if n == 0 then [] else RowsBefore(games, n - 1, cfg, pow10) + [RowAt(games, n - 1, cfg, pow10)]
  }

  /** Extending the prefix by one game applies one more update. */
  lemma RatingsAfterStep(elo: Ratings, games: seq<Game>, i: nat, cfg: Config, pow10: real -> real)
    requires i < |games| && PositivePower(pow10) && Covers(elo, games[..i + 1])
    ensures Covers(elo, games[..i])
    ensures games[i].home in RatingsAfter(elo, games[..i], cfg, pow10)
    ensures games[i].away in RatingsAfter(elo, games[..i], cfg, pow10)
    ensures RatingsAfter(elo, games[..i + 1], cfg, pow10)
         == Update(RatingsAfter(elo, games[..i], cfg, pow10), games[i], cfg, pow10)
  {
    assert games[..i + 1][..i] == games[..i];
    assert games[..i + 1][i] == games[i];
    forall j | 0 <= j < i ensures games[..i][j] == games[..i + 1][j] { }
  }

  lemma RowAtUnfold(games: seq<Game>, i: nat, cfg: Config, pow10: real -> real, elo: Ratings)
    requires i < |games| && PositivePower(pow10)
    requires Covers(InitialRatings(games, cfg.eloMean), games[..i])
    requires elo == RatingsAfter(InitialRatings(games, cfg.eloMean), games[..i], cfg, pow10)
    ensures games[i].home in elo && games[i].away in elo
    ensures RowAt(games, i, cfg, pow10)
         == EloRow(elo[games[i].home], elo[games[i].away],
                   ExpectedHome(elo[games[i].home], elo[games[i].away], cfg.eloHomeAdvantage, pow10))
  {
  }

  /**
   * The body of the game loop: read both ratings, compute the expected home
   * score, then overwrite the home and the away rating.  The in-place form
   * of `Update`.
   */
  method PlayGame(elo: Ratings, game: Game, cfg: Config, pow10: real -> real)
    returns (hElo: real, aElo: real, expHome: real, next: Ratings)
    requires game.home in elo && game.away in elo && PositivePower(pow10)
    ensures hElo == elo[game.home] && aElo == elo[game.away]
    ensures expHome == ExpectedHome(hElo, aElo, cfg.eloHomeAdvantage, pow10)
    ensures next == Update(elo, game, cfg, pow10)
  {
    var k, hfa := cfg.eloK, cfg.eloHomeAdvantage;
    var home, away := game.home, game.away;
    hElo, aElo := elo[home], elo[away];

    expHome := 1.0 / (1.0 + pow10((aElo - hElo - hfa) / 400.0));

    var actualHome := if game.homeWin then 1.0 else 0.0;
    next := elo[home := hElo + k * (actualHome - expHome)];
    next := next[away := aElo + k * ((1.0 - actualHome) - (1.0 - expHome))];

    ghost var r := Update(elo, game, cfg, pow10);
    assert next[home] == r[home] && next[away] == r[away];
    assert forall t :: t in elo && !Plays(game, t) ==> next[t] == r[t];
  }

  /**
   * `compute_elo_ratings`: records each game's ratings before updating them,
   * so every row holds pre-game information and a probability in (0, 1).
   */
  method ComputeEloRatings(games: seq<Game>, cfg: Config, pow10: real -> real) returns (rows: seq<EloRow>)
    requires PositivePower(pow10)
    ensures |rows| == |games|
    ensures forall i :: 0 <= i < |games| ==> rows[i] == RowAt(games, i, cfg, pow10)
    ensures forall i :: 0 <= i < |games| ==> 0.0 < rows[i].homeProb < 1.0
  {
    var elo: Ratings := InitialRatings(games, cfg.eloMean);
    rows := [];
    for i := 0 to |games|
      invariant Covers(InitialRatings(games, cfg.eloMean), games[..i])
      invariant elo == RatingsAfter(InitialRatings(games, cfg.eloMean), games[..i], cfg, pow10)
      invariant rows == RowsBefore(games, i, cfg, pow10)
    {
      RowAtUnfold(games, i, cfg, pow10, elo);
      var hElo, aElo, expHome, next := PlayGame(elo, games[i], cfg, pow10);
      LoopStep(games, i, cfg, pow10, elo, EloRow(hElo, aElo, expHome), next);
      rows := rows + [EloRow(hElo, aElo, expHome)];
      elo := next;
    }
  }

  /** One iteration of the game loop keeps the loop's invariants. */
  lemma LoopStep(games: seq<Game>, i: nat, cfg: Config, pow10: real -> real,
                 elo: Ratings, row: EloRow, next: Ratings)
    requires i < |games| && PositivePower(pow10)
    requires Covers(InitialRatings(games, cfg.eloMean), games[..i])
    requires elo == RatingsAfter(InitialRatings(games, cfg.eloMean), games[..i], cfg, pow10)
    requires games[i].home in elo && games[i].away in elo
    requires row == EloRow(elo[games[i].home], elo[games[i].away],
                           ExpectedHome(elo[games[i].home], elo[games[i].away], cfg.eloHomeAdvantage, pow10))
    requires next == Update(elo, games[i], cfg, pow10)
    ensures Covers(InitialRatings(games, cfg.eloMean), games[..i + 1])
    ensures next == RatingsAfter(InitialRatings(games, cfg.eloMean), games[..i + 1], cfg, pow10)
    ensures row == RowAt(games, i, cfg, pow10)
  {
    assert Covers(InitialRatings(games, cfg.eloMean), games[..i + 1]) by {
      InitialCoversPrefix(games, cfg.eloMean, i + 1);
    }
    assert next == RatingsAfter(InitialRatings(games, cfg.eloMean), games[..i + 1], cfg, pow10) by {
      RatingsAfterStep(InitialRatings(games, cfg.eloMean), games, i, cfg, pow10);
    }
    assert row == RowAt(games, i, cfg, pow10) by {
      RowAtUnfold(games, i, cfg, pow10, elo);
    }
  }

  /** A team that has not played keeps the rating it started with. */
  lemma {:induction false} UnseenTeamKeepsRating(elo: Ratings, gs: seq<Game>, cfg: Config, pow10: real -> real, t: Team)
    requires Covers(elo, gs) && PositivePower(pow10)
    requires t in elo && Unseen(gs, t)
    ensures RatingsAfter(elo, gs, cfg, pow10)[t] == elo[t]
  {
    if gs != [] {
      var prefix := gs[..|gs| - 1];
      assert Covers(elo, prefix) by {
        forall i | 0 <= i < |prefix| ensures prefix[i] == gs[i] { }
      }
      assert Unseen(prefix, t) by {
        forall i | 0 <= i < |prefix| ensures prefix[i] == gs[i] { }
      }
      assert !Plays(gs[|gs| - 1], t);
      UnseenTeamKeepsRating(elo, prefix, cfg, pow10, t);
    }
  }

  /** A team's first game is played at the configured mean rating. */
  lemma FirstGameAtMean(games: seq<Game>, i: nat, cfg: Config, pow10: real -> real)
    requires i < |games| && PositivePower(pow10)
    ensures Unseen(games[..i], games[i].home) ==> RowAt(games, i, cfg, pow10).homeElo == cfg.eloMean
    ensures Unseen(games[..i], games[i].away) ==> RowAt(games, i, cfg, pow10).awayElo == cfg.eloMean
  {
    InitialCoversPrefix(games, cfg.eloMean, i);
    var init := InitialRatings(games, cfg.eloMean);
    if Unseen(games[..i], games[i].home) {
      UnseenTeamKeepsRating(init, games[..i], cfg, pow10, games[i].home);
    }
    if Unseen(games[..i], games[i].away) {
      UnseenTeamKeepsRating(init, games[..i], cfg, pow10, games[i].away);
    }
  }

  /** One update moves the two ratings by opposite amounts and leaves every other team alone. */
  lemma UpdateIsZeroSum(elo: Ratings, g: Game, cfg: Config, pow10: real -> real)
    requires g.home in elo && g.away in elo && PositivePower(pow10)
    requires g.home != g.away
    ensures Update(elo, g, cfg, pow10)[g.home] - elo[g.home] == -(Update(elo, g, cfg, pow10)[g.away] - elo[g.away])
    ensures forall t :: t in elo && !Plays(g, t) ==> Update(elo, g, cfg, pow10)[t] == elo[t]
  {
  }

  /** With a positive learning rate a home win raises the home rating and lowers the away one; a home loss does the opposite. */
  lemma {:induction false} ResultMovesRatings(elo: Ratings, g: Game, cfg: Config, pow10: real -> real)
    requires g.home in elo && g.away in elo && PositivePower(pow10)
    requires g.home != g.away && cfg.eloK > 0.0
    ensures g.homeWin ==> Update(elo, g, cfg, pow10)[g.home] > elo[g.home] && Update(elo, g, cfg, pow10)[g.away] < elo[g.away]
    ensures !g.homeWin ==> Update(elo, g, cfg, pow10)[g.home] < elo[g.home] && Update(elo, g, cfg, pow10)[g.away] > elo[g.away]
  {
    var expHome := ExpectedHome(elo[g.home], elo[g.away], cfg.eloHomeAdvantage, pow10);
    var r := Update(elo, g, cfg, pow10);
    if g.homeWin {
      assert r[g.home] == elo[g.home] + cfg.eloK * (1.0 - expHome);
      assert cfg.eloK * (1.0 - expHome) > 0.0;
    } else {
      assert r[g.home] == elo[g.home] + cfg.eloK * (0.0 - expHome);
      assert cfg.eloK * expHome > 0.0;
    }
  }

  /** `ts` lists each team at most once. */
  predicate Distinct(ts: seq<Team>)
  {
    forall i, j :: 0 <= i < j < |ts| ==> ts[i] != ts[j]
  }

  /** The sum of the ratings of the teams `ts`. */
  function Total(ts: seq<Team>, elo: Ratings): real
    requires forall t :: t in ts ==> t in elo
  {
    if ts == [] then 0.0 else elo[ts[0]] + Total(ts[1..], elo)
  }

  lemma {:induction false} TotalPointUpdate(ts: seq<Team>, elo: Ratings, x: Team, v: real)
    requires Distinct(ts) && x in elo
    requires forall t :: t in ts ==> t in elo
    ensures Total(ts, elo[x := v]) == Total(ts, elo) + (if x in ts then v - elo[x] else 0.0)
  {
    if ts != [] {
      assert Distinct(ts[1..]);
      TotalPointUpdate(ts[1..], elo, x, v);
      if ts[0] == x {
        assert x !in ts[1..] by {
          forall j | 0 <= j < |ts[1..]| ensures ts[1..][j] != x {
            assert ts[1..][j] == ts[j + 1];
          }
        }
      }
    }
  }

  /**
   * Rating is neither created nor destroyed: as long as no team plays itself,
   * the ratings of all teams sum to the same total after any run of games.
   */
  lemma {:induction false} TotalPreserved(ts: seq<Team>, elo: Ratings, gs: seq<Game>, cfg: Config, pow10: real -> real)
    requires Distinct(ts) && PositivePower(pow10) && Covers(elo, gs)
    requires forall t :: t in ts ==> t in elo
    requires forall i :: 0 <= i < |gs| ==> gs[i].home != gs[i].away && gs[i].home in ts && gs[i].away in ts
    ensures Total(ts, RatingsAfter(elo, gs, cfg, pow10)) == Total(ts, elo)
  {
    if gs != [] {
      var prefix := gs[..|gs| - 1];
      var g := gs[|gs| - 1];
      assert Covers(elo, prefix) by {
        forall i | 0 <= i < |prefix| ensures prefix[i] == gs[i] { }
      }
      TotalPreserved(ts, elo, prefix, cfg, pow10);
      var before := RatingsAfter(elo, prefix, cfg, pow10);
      var after := Update(before, g, cfg, pow10);
      UpdateIsZeroSum(before, g, cfg, pow10);
      var mid := before[g.home := after[g.home]];
      assert after == mid[g.away := after[g.away]];
      TotalPointUpdate(ts, before, g.home, after[g.home]);
      TotalPointUpdate(ts, mid, g.away, after[g.away]);
    }
  }

  /** The starting total is one mean per team. */
  lemma {:induction false} InitialTotal(ts: seq<Team>, elo: Ratings, mean: real)
    requires forall t :: t in ts ==> t in elo && elo[t] == mean
    ensures Total(ts, elo) == |ts| as real * mean
  {
    if ts != [] {
      InitialTotal(ts[1..], elo, mean);
    }
  }

  /** Hence, over a whole input without self-games, the ratings always sum to `|teams| * elo_mean`. */
  lemma TotalIsTeamsTimesMean(games: seq<Game>, ts: seq<Team>, i: nat, cfg: Config, pow10: real -> real)
    requires i <= |games| && PositivePower(pow10)
    requires Distinct(ts) && forall t :: t in ts <==> t in TeamsOf(games)
    requires forall j :: 0 <= j < |games| ==> games[j].home != games[j].away
    ensures Covers(InitialRatings(games, cfg.eloMean), games[..i])
    ensures Total(ts, RatingsAfter(InitialRatings(games, cfg.eloMean), games[..i], cfg, pow10)) == |ts| as real * cfg.eloMean
  {
    InitialCoversPrefix(games, cfg.eloMean, i);
    InitialTotalOfTeams(games, ts, cfg);
    TotalOverPrefix(games, ts, i, cfg, pow10);
  }

  lemma InitialTotalOfTeams(games: seq<Game>, ts: seq<Team>, cfg: Config)
    requires forall t :: t in ts <==> t in TeamsOf(games)
    ensures Total(ts, InitialRatings(games, cfg.eloMean)) == |ts| as real * cfg.eloMean
  {
    InitialTotal(ts, InitialRatings(games, cfg.eloMean), cfg.eloMean);
  }

  lemma TotalOverPrefix(games: seq<Game>, ts: seq<Team>, i: nat, cfg: Config, pow10: real -> real)
    requires i <= |games| && PositivePower(pow10)
    requires Distinct(ts) && forall t :: t in ts <==> t in TeamsOf(games)
    requires forall j :: 0 <= j < |games| ==> games[j].home != games[j].away
    requires Covers(InitialRatings(games, cfg.eloMean), games[..i])
    ensures Total(ts, RatingsAfter(InitialRatings(games, cfg.eloMean), games[..i], cfg, pow10))
         == Total(ts, InitialRatings(games, cfg.eloMean))
  {
    PrefixTeamsListed(games, ts, i);
    TotalPreserved(ts, InitialRatings(games, cfg.eloMean), games[..i], cfg, pow10);
  }

  lemma PrefixTeamsListed(games: seq<Game>, ts: seq<Team>, i: nat)
    requires i <= |games|
    requires forall t :: t in TeamsOf(games) ==> t in ts
    requires forall j :: 0 <= j < |games| ==> games[j].home != games[j].away
    ensures forall j :: 0 <= j < |games[..i]| ==> games[..i][j].home != games[..i][j].away && games[..i][j].home in ts && games[..i][j].away in ts
  {
    forall j | 0 <= j < i
      ensures games[..i][j].home != games[..i][j].away && games[..i][j].home in ts && games[..i][j].away in ts
    {
      assert games[..i][j] == games[j];
    }
  }

  lemma UpdateDependsOnPlayedTeams(r1: Ratings, r2: Ratings, g: Game, cfg: Config, pow10: real -> real, t: Team)
    requires PositivePower(pow10)
    requires g.home in r1 && g.away in r1 && g.home in r2 && g.away in r2 && t in r1 && t in r2
    requires r1[g.home] == r2[g.home] && r1[g.away] == r2[g.away] && r1[t] == r2[t]
    ensures Update(r1, g, cfg, pow10)[t] == Update(r2, g, cfg, pow10)[t]
  {
  }

  /** Two starting maps that agree on the teams of `gs` and on `t` give `t` the same rating after `gs`. */
  lemma {:induction false} RatingsDependOnPlayedTeams(m1: Ratings, m2: Ratings, gs: seq<Game>, cfg: Config, pow10: real -> real, t: Team)
    requires PositivePower(pow10) && Covers(m1, gs) && Covers(m2, gs)
    requires t in m1 && t in m2 && m1[t] == m2[t]
    requires forall i :: 0 <= i < |gs| ==> m1[gs[i].home] == m2[gs[i].home] && m1[gs[i].away] == m2[gs[i].away]
    ensures RatingsAfter(m1, gs, cfg, pow10)[t] == RatingsAfter(m2, gs, cfg, pow10)[t]
  {
    if gs != [] {
      var prefix := gs[..|gs| - 1];
      var g := gs[|gs| - 1];
      forall i | 0 <= i < |prefix| ensures prefix[i] == gs[i] { }
      RatingsDependOnPlayedTeams(m1, m2, prefix, cfg, pow10, t);
      RatingsDependOnPlayedTeams(m1, m2, prefix, cfg, pow10, g.home);
      RatingsDependOnPlayedTeams(m1, m2, prefix, cfg, pow10, g.away);
      UpdateDependsOnPlayedTeams(RatingsAfter(m1, prefix, cfg, pow10), RatingsAfter(m2, prefix, cfg, pow10), g, cfg, pow10, t);
    }
  }

  /** No look-ahead: a game's ELO features are fixed by that game and the games before it. */
  lemma NoLookAhead(games: seq<Game>, other: seq<Game>, i: nat, cfg: Config, pow10: real -> real)
    requires i < |games| && i < |other| && PositivePower(pow10)
    requires games[..i + 1] == other[..i + 1]
    ensures RowAt(games, i, cfg, pow10) == RowAt(other, i, cfg, pow10)
  {
    var m1 := InitialRatings(games, cfg.eloMean);
    var m2 := InitialRatings(other, cfg.eloMean);
    assert games[..i] == other[..i] by {
      assert games[..i] == games[..i + 1][..i];
      assert other[..i] == other[..i + 1][..i];
    }
    assert games[i] == games[..i + 1][i] == other[i];
    InitialCoversPrefix(games, cfg.eloMean, i);
    InitialCoversPrefix(other, cfg.eloMean, i);
    forall j | 0 <= j < i ensures games[..i][j] == games[j] && other[..i][j] == other[j] { }
    RatingsDependOnPlayedTeams(m1, m2, games[..i], cfg, pow10, games[i].home);
    RatingsDependOnPlayedTeams(m1, m2, games[..i], cfg, pow10, games[i].away);
  }
}
