/**
 * The legacy multi-strategy replay: one bankroll trend per pick strategy,
 * each game staking a fixed fraction of the strategy's latest bankroll and
 * paying out at the winning team's line.
 *
 * The module-level globals of the Python script are the fields of one
 * `Simulation` object.  Amounts are integer cents (see `Money`).
 */
module LegacyReplay {
  import opened GameRecords
  import opened Money
  import opened LegacyPicks
  import Odds

  /** `convert_line_to_multiplier`: the decimal payout of American line `line`.  A zero line divides by zero. */
  function ConvertLineToMultiplier(line: real): (m: real)
    requires line != 0.0
    ensures m == Odds.AmericanToDecimal(line)
    ensures m > 1.0
  {
    if line > 0.0 then line / 100.0 + 1.0
    else 100.0 / Odds.Abs(line) + 1.0
  }

  /** Every game's winning line can be converted. */
  predicate PlayableLines(games: seq<LegacyGame>)
  {
    forall i :: 0 <= i < |games| ==> games[i].winningLine != 0.0
  }

  function Last(trend: seq<int>): int
    requires trend != []
  {
    trend[|trend| - 1]
  }

  /** The stake of one pick: the bankroll times the confidence, rounded to the cent. */
  function BetAmount(bankroll: int, confidence: real): (b: int)
    ensures bankroll >= 0 && 0.0 <= confidence <= 1.0 ==> 0 <= b <= bankroll
  {
    RoundedShareWithin(bankroll, confidence);
    RoundHalfEven(bankroll as real * confidence)
  }

  /** The winnings of a won pick: the stake times the winning line's multiplier, rounded to the cent. */
  function Winnings(betAmount: int, winningLine: real): (w: int)
    requires winningLine != 0.0
    ensures betAmount >= 0 ==> w >= betAmount
  {
    var m := ConvertLineToMultiplier(winningLine);
    ScaledStakeCoversStake(betAmount, m);
    RoundHalfEven(betAmount as real * m)
  }

  /** The bankroll after one pick: the stake is taken, and the winnings come back on a win. */
  function NextBankroll(bankroll: int, c: Choice, g: LegacyGame): (next: int)
    requires g.winningLine != 0.0
    ensures bankroll >= 0 && 0.0 <= c.confidence <= 1.0 ==> next >= 0
  {
    var bet := BetAmount(bankroll, c.confidence);
    if c.team == g.winningTeam then bankroll - bet + Winnings(bet, g.winningLine) else bankroll - bet
  }

  /** A strategy's trend after one more game. */
  function Advanced(trend: seq<int>, rule: PickRule, g: LegacyGame): (next: seq<int>)
    requires trend != [] && g.winningLine != 0.0
    ensures |next| == |trend| + 1 && trend <= next
    ensures Last(trend) >= 0 ==> Last(next) >= 0
  {
    trend + [NextBankroll(Last(trend), Apply(rule, g), g)]
  }

  /** A strategy's trend after `games`, on its own. */
  function ExtendTrend(trend: seq<int>, rule: PickRule, games: seq<LegacyGame>): (t: seq<int>)
    requires trend != [] && PlayableLines(games)
    ensures |t| == |trend| + |games| && trend <= t
  {
    if games == [] then trend
    else
      var before := ExtendTrend(trend, rule, games[..|games| - 1]);
      Advanced(before, rule, games[|games| - 1])
  }

  /** Every strategy has a non-empty trend. */
  ghost predicate Seeded(trends: map<string, seq<int>>, methods: map<string, PickRule>)
  {
    methods.Keys <= trends.Keys && forall k :: k in trends ==> trends[k] != []
  }

  /** All trends after one game: every strategy's trend grows by one value, the others stay. */
  function StepTrends(trends: map<string, seq<int>>, methods: map<string, PickRule>, g: LegacyGame): (next: map<string, seq<int>>)
    requires Seeded(trends, methods) && g.winningLine != 0.0
    ensures next.Keys == trends.Keys && Seeded(next, methods)
  {
    map k | k in trends :: if k in methods then Advanced(trends[k], methods[k], g) else trends[k]
  }

  /** All trends after `games`, game by game. */
  function ReplayGames(trends: map<string, seq<int>>, methods: map<string, PickRule>, games: seq<LegacyGame>): (next: map<string, seq<int>>)
    requires Seeded(trends, methods) && PlayableLines(games)
    ensures next.Keys == trends.Keys && Seeded(next, methods)
  {
    if games == [] then trends
    else StepTrends(ReplayGames(trends, methods, games[..|games| - 1]), methods, games[|games| - 1])
  }

  /** The games of `seasons`, season after season. */
  function SeasonGames(data: map<int, seq<LegacyGame>>, seasons: seq<int>): (games: seq<LegacyGame>)
    requires forall i :: 0 <= i < |seasons| ==> seasons[i] in data
    ensures forall k, j :: 0 <= k < |seasons| && 0 <= j < |data[seasons[k]]| ==> data[seasons[k]][j] in games
  {
    if seasons == [] then []
    else
      var earlier := seasons[..|seasons| - 1];
      assert forall k :: 0 <= k < |earlier| ==> earlier[k] == seasons[k];
      SeasonGames(data, earlier) + data[seasons[|seasons| - 1]]
  }

  /** Every season's games can be replayed. */
  ghost predicate PlayableSeasons(data: map<int, seq<LegacyGame>>, seasons: seq<int>)
  {
    forall i :: 0 <= i < |seasons| ==> seasons[i] in data && PlayableLines(data[seasons[i]])
  }

  lemma {:induction false} SeasonGamesPlayable(data: map<int, seq<LegacyGame>>, seasons: seq<int>)
    requires PlayableSeasons(data, seasons)
    ensures PlayableLines(SeasonGames(data, seasons))
  {
    if seasons != [] {
      var init := seasons[..|seasons| - 1];
      assert PlayableSeasons(data, init) by {
        forall i | 0 <= i < |init| ensures init[i] == seasons[i] { }
      }
      SeasonGamesPlayable(data, init);
    }
  }

  /** The module state of the legacy script. */
  class Simulation {
    var simulationData: map<int, seq<LegacyGame>>
    var pickMethods: map<string, PickRule>
    var initialBankroll: int
    var bankrollTrend: map<string, seq<int>>

    /** The globals as the script declares them. */
    constructor ()
      ensures simulationData == map[] && pickMethods == map[] && initialBankroll == 0 && bankrollTrend == map[]
    {
      simulationData := map[];
      pickMethods := map[];
      initialBankroll := 0;
      bankrollTrend := map[];
    }

    /** `with_bankroll`. */
    method WithBankroll(amount: int)
      modifies this
      ensures initialBankroll == amount
      ensures simulationData == old(simulationData) && pickMethods == old(pickMethods) && bankrollTrend == old(bankrollTrend)
    {
      initialBankroll := amount;
    }

    /** `with_data`. */
    method WithData(data: map<int, seq<LegacyGame>>)
      modifies this
      ensures simulationData == data
      ensures initialBankroll == old(initialBankroll) && pickMethods == old(pickMethods) && bankrollTrend == old(bankrollTrend)
    {
      simulationData := data;
    }

    /**
     * `with_methods`: installs the strategies and seeds each one's trend with
     * the bankroll set before the call; trends of other keys are kept.
     */
    method WithMethods(methods: map<string, PickRule>)
      modifies this
      ensures pickMethods == methods
      ensures bankrollTrend.Keys == old(bankrollTrend).Keys + methods.Keys
      ensures forall k :: k in methods ==> bankrollTrend[k] == [initialBankroll]
      ensures forall k :: k in old(bankrollTrend) && k !in methods ==> bankrollTrend[k] == old(bankrollTrend)[k]
      ensures initialBankroll == old(initialBankroll) && simulationData == old(simulationData)
    {
      pickMethods := methods;
      var remaining := methods.Keys;
      while remaining != {}
        invariant remaining <= methods.Keys
        invariant pickMethods == methods && initialBankroll == old(initialBankroll) && simulationData == old(simulationData)
        invariant bankrollTrend.Keys == old(bankrollTrend).Keys + (methods.Keys - remaining)
        invariant forall k :: k in methods.Keys - remaining ==> bankrollTrend[k] == [initialBankroll]
        invariant forall k :: k in old(bankrollTrend) && k !in methods.Keys - remaining ==> bankrollTrend[k] == old(bankrollTrend)[k]
        decreases remaining
      {
        var key :| key in remaining;
        bankrollTrend := bankrollTrend[key := [initialBankroll]];
        remaining := remaining - {key};
      }
    }

    /** Every installed strategy has a trend to continue. */
    ghost predicate Ready()
      reads this
    {
      Seeded(bankrollTrend, pickMethods)
    }

    /**
     * One strategy's turn at one game: stake from its latest bankroll,
     * collect on a win, record the new bankroll.  The in-place form of
     * `Advanced`.
     */
    method PlayStrategy(key: string, g: LegacyGame)
      requires key in pickMethods && key in bankrollTrend && bankrollTrend[key] != [] && g.winningLine != 0.0
      modifies this
      ensures pickMethods == old(pickMethods) && simulationData == old(simulationData) && initialBankroll == old(initialBankroll)
      ensures bankrollTrend == old(bankrollTrend)[key := Advanced(old(bankrollTrend)[key], pickMethods[key], g)]
    {
      var rule := pickMethods[key];
      var choice := Apply(rule, g);
      var pickLine := if choice.team == g.homeTeam then g.homeLine else g.awayLine;

      var bankroll := Last(bankrollTrend[key]);
      var betAmount := BetAmount(bankroll, choice.confidence);
      bankroll := bankroll - betAmount;

      var didWinPick := choice.team == g.winningTeam;
      if didWinPick {
        var winningsAmount := Winnings(betAmount, g.winningLine);
        bankroll := bankroll + winningsAmount;
      }
      bankrollTrend := bankrollTrend[key := bankrollTrend[key] + [bankroll]];
    }

    /** One game for every strategy, in any order: each strategy reads and extends only its own trend. */
    method PlayGame(g: LegacyGame)
      requires Ready() && g.winningLine != 0.0
      modifies this
      ensures pickMethods == old(pickMethods) && simulationData == old(simulationData) && initialBankroll == old(initialBankroll)
      ensures bankrollTrend == StepTrends(old(bankrollTrend), pickMethods, g)
    {
      ghost var start := bankrollTrend;
      var remaining := pickMethods.Keys;
      while remaining != {}
        invariant remaining <= pickMethods.Keys
        invariant pickMethods == old(pickMethods) && simulationData == old(simulationData) && initialBankroll == old(initialBankroll)
        invariant bankrollTrend.Keys == start.Keys
        invariant forall k :: k in bankrollTrend ==>
                    bankrollTrend[k] == if k in pickMethods && k !in remaining then Advanced(start[k], pickMethods[k], g) else start[k]
        decreases remaining
      {
        var key :| key in remaining;
        PlayStrategy(key, g);
        remaining := remaining - {key};
      }
    }

    /** The inner loop of `games_for_seasons`: the games of one season, in order. */
    method PlaySeason(seasonData: seq<LegacyGame>)
      requires Ready() && PlayableLines(seasonData)
      modifies this
      ensures pickMethods == old(pickMethods) && simulationData == old(simulationData) && initialBankroll == old(initialBankroll)
      ensures bankrollTrend == ReplayGames(old(bankrollTrend), pickMethods, seasonData)
    {
      ghost var start := bankrollTrend;
      for i := 0 to |seasonData|
        invariant pickMethods == old(pickMethods) && simulationData == old(simulationData) && initialBankroll == old(initialBankroll)
        invariant PlayableLines(seasonData[..i])
        invariant bankrollTrend == ReplayGames(start, pickMethods, seasonData[..i])
      {
        PlayGame(seasonData[i]);
        assert seasonData[..i + 1][..i] == seasonData[..i];
      }
      assert seasonData[..|seasonData|] == seasonData;
    }

    /** `games_for_seasons` without the plotting: every game of every season, in order. */
    method GamesForSeasons(seasons: seq<int>)
      requires Ready() && PlayableSeasons(simulationData, seasons)
      modifies this
      ensures pickMethods == old(pickMethods) && simulationData == old(simulationData) && initialBankroll == old(initialBankroll)
      ensures PlayableLines(SeasonGames(simulationData, seasons))
      ensures bankrollTrend == ReplayGames(old(bankrollTrend), pickMethods, SeasonGames(simulationData, seasons))
    {
      ghost var start := bankrollTrend;
      SeasonGamesPlayable(simulationData, seasons);
      for s := 0 to |seasons|
        invariant pickMethods == old(pickMethods) && simulationData == old(simulationData) && initialBankroll == old(initialBankroll)
        invariant PlayableSeasons(simulationData, seasons[..s])
        invariant PlayableLines(SeasonGames(simulationData, seasons[..s]))
        invariant bankrollTrend == ReplayGames(start, pickMethods, SeasonGames(simulationData, seasons[..s]))
      {
        ghost var earlier := SeasonGames(simulationData, seasons[..s]);
        PlaySeason(simulationData[seasons[s]]);
        NextSeason(simulationData, seasons, s);
        ReplayConcat(start, pickMethods, earlier, simulationData[seasons[s]]);
      }
      assert seasons[..|seasons|] == seasons;
    }
  }

  /** The games of the first `s + 1` seasons are those of the first `s` followed by season `s`'s. */
  lemma NextSeason(data: map<int, seq<LegacyGame>>, seasons: seq<int>, s: nat)
    requires s < |seasons| && PlayableSeasons(data, seasons)
    ensures PlayableSeasons(data, seasons[..s + 1])
    ensures SeasonGames(data, seasons[..s + 1]) == SeasonGames(data, seasons[..s]) + data[seasons[s]]
    ensures PlayableLines(SeasonGames(data, seasons[..s + 1]))
  {
    assert seasons[..s + 1][..s] == seasons[..s];
    assert PlayableSeasons(data, seasons[..s + 1]) by {
      forall j | 0 <= j < s + 1 ensures seasons[..s + 1][j] == seasons[j] { }
    }
    SeasonGamesPlayable(data, seasons[..s + 1]);
  }

  /** Concatenated playable runs are playable. */
  lemma PlayableConcat(a: seq<LegacyGame>, b: seq<LegacyGame>)
    requires PlayableLines(a) && PlayableLines(b)
    ensures PlayableLines(a + b)
  {
    forall i | 0 <= i < |a + b| ensures (a + b)[i].winningLine != 0.0 {
      if i >= |a| { assert (a + b)[i] == b[i - |a|]; }
    }
  }

  /** Replaying two runs of games one after the other is replaying their concatenation. */
  lemma {:induction false} ReplayConcat(trends: map<string, seq<int>>, methods: map<string, PickRule>, a: seq<LegacyGame>, b: seq<LegacyGame>)
    requires Seeded(trends, methods) && PlayableLines(a) && PlayableLines(b)
    ensures PlayableLines(a + b)
    ensures ReplayGames(trends, methods, a + b) == ReplayGames(ReplayGames(trends, methods, a), methods, b)
  {
    PlayableConcat(a, b);
    if b == [] {
      assert a + b == a;
    } else {
      var init := b[..|b| - 1];
      var g := b[|b| - 1];
      assert PlayableLines(init) by {
        forall i | 0 <= i < |init| ensures init[i] == b[i] { }
      }
      ReplayConcat(trends, methods, a, init);
      assert (a + b)[..|a + b| - 1] == a + init;
      assert (a + b)[|a + b| - 1] == g;
      calc {
        ReplayGames(trends, methods, a + b);
        StepTrends(ReplayGames(trends, methods, a + init), methods, g);
        StepTrends(ReplayGames(ReplayGames(trends, methods, a), methods, init), methods, g);
        ReplayGames(ReplayGames(trends, methods, a), methods, b);
      }
    }
  }

  /**
   * The strategies do not interact: each one's trend after a replay is its
   * own trend extended over the games, one value per game; keys without a
   * strategy keep their trend.
   */
  lemma {:induction false} StrategiesIndependent(trends: map<string, seq<int>>, methods: map<string, PickRule>, games: seq<LegacyGame>, k: string)
    requires Seeded(trends, methods) && PlayableLines(games) && k in trends
    ensures ReplayGames(trends, methods, games)[k] == if k in methods then ExtendTrend(trends[k], methods[k], games) else trends[k]
    ensures k in methods ==> |ReplayGames(trends, methods, games)[k]| == |trends[k]| + |games|
  {
    if games != [] {
      var init := games[..|games| - 1];
      assert PlayableLines(init) by {
        forall i | 0 <= i < |init| ensures init[i] == games[i] { }
      }
      StrategiesIndependent(trends, methods, init, k);
    }
  }

  /** A lost pick loses exactly the rounded stake. */
  lemma LostPick(bankroll: int, c: Choice, g: LegacyGame)
    requires g.winningLine != 0.0 && c.team != g.winningTeam
    ensures NextBankroll(bankroll, c, g) == bankroll - BetAmount(bankroll, c.confidence)
  {
  }

  /** With a non-negative bankroll and confidence, a won pick never lowers the bankroll. */
  lemma WonPickNeverLoses(bankroll: int, c: Choice, g: LegacyGame)
    requires g.winningLine != 0.0 && c.team == g.winningTeam
    requires bankroll >= 0 && c.confidence >= 0.0
    ensures NextBankroll(bankroll, c, g) >= bankroll
  {
    ProductNonNegative(bankroll as real, c.confidence);
    RoundNonNegative(bankroll as real * c.confidence);
  }

  /** A non-negative stake scaled by a multiplier above 1 rounds to at least the stake. */
  lemma ScaledStakeCoversStake(bet: int, m: real)
    ensures bet >= 0 && m > 1.0 ==> RoundHalfEven(bet as real * m) >= bet
  {
    if bet >= 0 && m > 1.0 {
      ScaledUp(bet as real, m);
      RoundMonotone(bet as real, bet as real * m);
      RoundExact(bet);
    }
  }

  lemma ScaledUp(x: real, m: real)
    requires x >= 0.0 && m > 1.0
    ensures x <= x * m
  {
    ProductNonNegative(x, m - 1.0);
    assert x * m == x + x * (m - 1.0);
  }

  /** A trend that starts non-negative never goes negative under the pick strategies. */
  lemma {:induction false} TrendNeverNegative(trend: seq<int>, rule: PickRule, games: seq<LegacyGame>)
    requires trend != [] && PlayableLines(games)
    requires forall i :: 0 <= i < |trend| ==> trend[i] >= 0
    ensures forall i :: 0 <= i < |ExtendTrend(trend, rule, games)| ==> ExtendTrend(trend, rule, games)[i] >= 0
  {
    if games != [] {
      var init := games[..|games| - 1];
      assert PlayableLines(init) by {
        forall i | 0 <= i < |init| ensures init[i] == games[i] { }
      }
      TrendNeverNegative(trend, rule, init);
      var before := ExtendTrend(trend, rule, init);
      assert Last(before) >= 0;
    }
  }
}
