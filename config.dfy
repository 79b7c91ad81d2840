/** The configuration surface the feature and backtest engines read. */
module Configuration {

  datatype Config = Config(
    eloK: real,              // rating learning rate
    eloHomeAdvantage: real,  // home-field advantage, in rating points
    eloMean: real,           // rating every team starts from
    rollingWindow: nat,      // trailing window of the form features, and the history a row needs
    initialBankroll: int,    // in cents
    kellyFraction: real,     // safety multiplier applied to the Kelly fraction
    minEdge: real,           // smallest edge worth a bet
    maxBetFraction: real     // cap on the fraction of the bankroll staked
  )

  /** The default configuration; $1000.00 is 100000 cents. */
  const DefaultConfig := Config(4.0, 24.0, 1500.0, 30, 100000, 0.25, 0.02, 0.05)
}

/** Game records as the feature engines receive them: one per game, in date order. */
module GameRecords {

  type Team = string

  datatype Game = Game(
    id: int,
    date: int,         // calendar day number
    home: Team,
    away: Team,
    homeScore: nat,
    awayScore: nat,
    homeWin: bool
  )

  predicate Plays(g: Game, t: Team)
  {
    g.home == t || g.away == t
  }

  /** Every team that appears in `gs`, on either side. */
  function TeamsOf(gs: seq<Game>): (teams: set<Team>)
    ensures forall i :: 0 <= i < |gs| ==> gs[i].home in teams && gs[i].away in teams
  {
    (set g | g in gs :: g.home) + (set g | g in gs :: g.away)
  }

  /** A team is in `TeamsOf(gs)` exactly when it plays in some game of `gs`. */
  lemma TeamsOfExactly(gs: seq<Game>, t: Team)
    ensures t in TeamsOf(gs) <==> !Unseen(gs, t)
  {
    if t in TeamsOf(gs) {
      var g :| g in gs && (g.home == t || g.away == t);
      var i :| 0 <= i < |gs| && gs[i] == g;
      assert Plays(gs[i], t);
    }
  }

  /** Both teams of every game of `gs` are among `teams`. */
  predicate AllTeamsIn(gs: seq<Game>, teams: set<Team>)
  {
    forall i :: 0 <= i < |gs| ==> gs[i].home in teams && gs[i].away in teams
  }

  /** `t` plays in none of the games of `gs`. */
  predicate Unseen(gs: seq<Game>, t: Team)
  {
    forall i :: 0 <= i < |gs| ==> !Plays(gs[i], t)
  }
}
