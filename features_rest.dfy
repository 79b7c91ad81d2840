/**
 * Days of rest of both teams before every game: the days since the team's
 * previous game, capped at 7, or 3 for a team's first game.
 */
module RestDays {
  import opened GameRecords

  /** The home team's and the away team's rest before one game. */
  datatype RestRow = RestRow(homeRest: int, awayRest: int)

  const RestCap := 7
  const OpenerRest := 3

  function MinInt(x: int, y: int): int
  {
    if x <= y then x else y
  }

  /** The rest of team `t` on day `date`, given the last game date of every team seen so far. */
  function Rest(last: map<Team, int>, t: Team, date: int): (r: int)
    ensures r <= RestCap
    ensures t in last ==> r <= date - last[t]
    ensures t !in last ==> r == OpenerRest
  {
    if t in last then MinInt(date - last[t], RestCap) else OpenerRest
  }

  /** The last game date of every team after the first `n` games: each game stamps its home team, then its away team. */
  function LastDates(games: seq<Game>, n: nat): (last: map<Team, int>)
    requires n <= |games|
    ensures forall k :: 0 <= k < n ==> games[k].home in last && games[k].away in last
  {
    if n == 0 then map[]
    else
      var g := games[n - 1];
      LastDates(games, n - 1)[g.home := g.date][g.away := g.date]
  }

  /** The rest columns of game `i`.  The away side reads the dates after the home side's stamp. */
  function RestRowAt(games: seq<Game>, i: nat): (r: RestRow)
    requires i < |games|
    ensures r.homeRest <= RestCap && r.awayRest <= RestCap
    ensures games[i].home == games[i].away ==> r.awayRest == 0
  {
    var g := games[i];
    var last := LastDates(games, i);
    RestRow(Rest(last, g.home, g.date), Rest(last[g.home := g.date], g.away, g.date))
  }

  /** The rest rows of the first `n` games. */
  ghost function RestRowsBefore(games: seq<Game>, n: nat): (rows: seq<RestRow>)
    requires n <= |games|
    ensures |rows| == n
  {
    if n == 0 then [] else RestRowsBefore(games, n - 1) + [RestRowAt(games, n - 1)]
  }

  lemma {:induction false} RestRowsBeforeAt(games: seq<Game>, n: nat)
    requires n <= |games|
    ensures forall j :: 0 <= j < n ==> RestRowsBefore(games, n)[j] == RestRowAt(games, j)
  {
    if n > 0 {
      RestRowsBeforeAt(games, n - 1);
    }
  }

  /** One side of one game: read the team's rest (`Rest`), then stamp the game's date. */
  method Stamp(last: map<Team, int>, team: Team, date: int) returns (rest: int, last': map<Team, int>)
    ensures rest == Rest(last, team, date)
    ensures last' == last[team := date]
  {
    if team in last {
      var delta := date - last[team];
      rest := MinInt(delta, RestCap);
    } else {
      rest := OpenerRest;
    }
    last' := last[team := date];
  }

  /** `compute_rest_days`: one pass over the games, keeping every team's last game date. */
  method ComputeRestDays(games: seq<Game>) returns (rows: seq<RestRow>)
    ensures |rows| == |games|
    ensures forall i :: 0 <= i < |games| ==> rows[i] == RestRowAt(games, i)
  {
    var last: map<Team, int> := map[];
    rows := [];
    for i := 0 to |games|
      invariant last == LastDates(games, i)
      invariant rows == RestRowsBefore(games, i)
    {
      var g := games[i];
      var homeRest, awayRest;
      homeRest, last := Stamp(last, g.home, g.date);
      awayRest, last := Stamp(last, g.away, g.date);
      rows := rows + [RestRow(homeRest, awayRest)];
    }
    RestRowsBeforeAt(games, |games|);
  }

  /** A team has a last game date exactly when it played one of the earlier games. */
  lemma {:induction false} DatedIffSeen(games: seq<Game>, n: nat, t: Team)
    requires n <= |games|
    ensures t in LastDates(games, n) <==> !Unseen(games[..n], t)
  {
    if n > 0 {
      DatedIffSeen(games, n - 1, t);
      assert games[..n][n - 1] == games[n - 1];
      forall k | 0 <= k < n - 1
        ensures games[..n][k] == games[..n - 1][k]
      {
      }
    }
  }

  /** The last game date of a team is the date of its most recent earlier game. */
  lemma {:induction false} LastDateIsPreviousGame(games: seq<Game>, n: nat, j: nat, t: Team)
    requires j < n <= |games| && Plays(games[j], t)
    requires forall k :: j < k < n ==> !Plays(games[k], t)
    ensures t in LastDates(games, n) && LastDates(games, n)[t] == games[j].date
  {
    if j < n - 1 {
      LastDateIsPreviousGame(games, n - 1, j, t);
      assert !Plays(games[n - 1], t);
    }
  }

  /** A team's first game gets the opener default of 3 days. */
  lemma FirstGameRest(games: seq<Game>, i: nat)
    requires i < |games|
    ensures Unseen(games[..i], games[i].home) ==> RestRowAt(games, i).homeRest == 3
    ensures Unseen(games[..i], games[i].away) && games[i].home != games[i].away ==> RestRowAt(games, i).awayRest == 3
  {
    DatedIffSeen(games, i, games[i].home);
    DatedIffSeen(games, i, games[i].away);
  }

  /**
   * After an earlier game, the rest is the days since the team's most recent
   * earlier game, capped at 7.
   */
  lemma RestIsDaysSincePreviousGame(games: seq<Game>, i: nat, j: nat)
    requires j < i < |games|
    ensures Plays(games[j], games[i].home) && (forall k :: j < k < i ==> !Plays(games[k], games[i].home))
            ==> RestRowAt(games, i).homeRest == MinInt(games[i].date - games[j].date, 7)
    ensures games[i].home != games[i].away && Plays(games[j], games[i].away)
            && (forall k :: j < k < i ==> !Plays(games[k], games[i].away))
            ==> RestRowAt(games, i).awayRest == MinInt(games[i].date - games[j].date, 7)
  {
    var g := games[i];
    if Plays(games[j], g.home) && (forall k :: j < k < i ==> !Plays(games[k], g.home)) {
      LastDateIsPreviousGame(games, i, j, g.home);
    }
    if Plays(games[j], g.away) && (forall k :: j < k < i ==> !Plays(games[k], g.away)) {
      LastDateIsPreviousGame(games, i, j, g.away);
    }
  }

  /** The cases the repository's tests check: openers, consecutive days, and a 19-day gap. */
  lemma RestExamples()
    ensures var games := [Game(0, 1, "Team A", "Team B", 3, 5, false), Game(1, 2, "Team A", "Team B", 5, 3, true)];
            RestRowAt(games, 0) == RestRow(3, 3) && RestRowAt(games, 1).homeRest == 1
    ensures var games := [Game(0, 1, "A", "B", 5, 3, true), Game(1, 20, "A", "B", 3, 5, false)];
            RestRowAt(games, 1).homeRest == 7
  {
    var games := [Game(0, 1, "Team A", "Team B", 3, 5, false), Game(1, 2, "Team A", "Team B", 5, 3, true)];
    assert LastDates(games, 1) == map["Team A" := 1, "Team B" := 1];
    var capped := [Game(0, 1, "A", "B", 5, 3, true), Game(1, 20, "A", "B", 3, 5, false)];
    assert LastDates(capped, 1) == map["A" := 1, "B" := 1];
  }
}
