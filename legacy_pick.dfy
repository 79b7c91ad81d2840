/**
 * The legacy pick strategies: each compares one pair of pre-game columns and
 * backs the home team or the away team with a fixed confidence of 1%.
 */
module LegacyPicks {
  import opened GameRecords

  /** A row of the legacy season data, with the columns the strategies and the replay read. */
  datatype LegacyGame = LegacyGame(
    homeTeam: Team,
    awayTeam: Team,
    homePreElo: real,
    awayPreElo: real,
    homeExpWinPct: real,
    awayExpWinPct: real,
    homeLine: real,
    awayLine: real,
    winningTeam: Team,
    winningLine: real
  )

  /** A strategy's answer: the team to back and the fraction of the bankroll to stake. */
  datatype Choice = Choice(team: Team, confidence: real)

  /** The four strategies of the pick module. */
  datatype PickRule = PreElo | PreEloContrarian | PythagoreanWinPct | PythagoreanWinPctPlusHomeAdvantage

  const Confidence := 0.01

  /** The shift each side's expected win percentage gets for home-field advantage. */
  const HomeAdvantageShift := 0.04

  /** `based_on_pre_elo_rating`: the team with the higher pre-game rating, the home team on a tie. */
  function BasedOnPreEloRating(g: LegacyGame): (c: Choice)
    ensures c.team == g.homeTeam || c.team == g.awayTeam
    ensures c.confidence == 0.01
  {
    Choice(if g.homePreElo >= g.awayPreElo then g.homeTeam else g.awayTeam, Confidence)
  }

  /** `based_on_pre_elo_rating_contrarian`: the team with the lower pre-game rating, the home team on a tie. */
  function BasedOnPreEloRatingContrarian(g: LegacyGame): (c: Choice)
    ensures c.team == g.homeTeam || c.team == g.awayTeam
    ensures c.confidence == 0.01
  {
    Choice(if g.homePreElo <= g.awayPreElo then g.homeTeam else g.awayTeam, Confidence)
  }

  /** `based_on_pythagorean_expected_win_pct`: the team with the higher expected win percentage. */
  function BasedOnPythagoreanExpectedWinPct(g: LegacyGame): (c: Choice)
    ensures c.team == g.homeTeam || c.team == g.awayTeam
    ensures c.confidence == 0.01
  {
    Choice(if g.homeExpWinPct >= g.awayExpWinPct then g.homeTeam else g.awayTeam, Confidence)
  }

  /**
   * `based_on_pythagorean_expected_win_pct_plus_home_team_advantage`: the
   * same comparison after moving 0.04 from the home side to the away side.
   */
  function BasedOnPythagoreanExpectedWinPctPlusHomeTeamAdvantage(g: LegacyGame): (c: Choice)
    ensures c.team == g.homeTeam || c.team == g.awayTeam
    ensures c.confidence == 0.01
  {
    var adjAwayExpWinPct := g.awayExpWinPct + HomeAdvantageShift;
    var adjHomeExpWinPct := g.homeExpWinPct - HomeAdvantageShift;
    Choice(if adjHomeExpWinPct >= adjAwayExpWinPct then g.homeTeam else g.awayTeam, Confidence)
  }

  /** The strategy `rule` applied to `g`. */
  function Apply(rule: PickRule, g: LegacyGame): (c: Choice)
    ensures c.team == g.homeTeam || c.team == g.awayTeam
    ensures 0.0 <= c.confidence <= 1.0
  {
    match rule
    case PreElo => BasedOnPreEloRating(g)
    case PreEloContrarian => BasedOnPreEloRatingContrarian(g)
    case PythagoreanWinPct => BasedOnPythagoreanExpectedWinPct(g)
    case PythagoreanWinPctPlusHomeAdvantage => BasedOnPythagoreanExpectedWinPctPlusHomeTeamAdvantage(g)
  }

  /** The rating rule backs the home team exactly when its rating is at least the away team's. */
  lemma PreEloPicksHomeIff(g: LegacyGame)
    requires g.homeTeam != g.awayTeam
    ensures BasedOnPreEloRating(g).team == g.homeTeam <==> g.homePreElo >= g.awayPreElo
  {
  }

  /**
   * The contrarian rule backs the home team exactly when its rating is at
   * most the away team's: on a tie both rules back the home team, otherwise
   * they back opposite teams.
   */
  lemma ContrarianOpposesOnlyOffTies(g: LegacyGame)
    requires g.homeTeam != g.awayTeam
    ensures BasedOnPreEloRatingContrarian(g).team == g.homeTeam <==> g.homePreElo <= g.awayPreElo
    ensures g.homePreElo == g.awayPreElo ==> BasedOnPreEloRatingContrarian(g).team == BasedOnPreEloRating(g).team == g.homeTeam
    ensures g.homePreElo != g.awayPreElo ==> BasedOnPreEloRatingContrarian(g).team != BasedOnPreEloRating(g).team
  {
  }

  /** The Pythagorean rule backs the home team exactly when its expected win percentage is at least the away team's. */
  lemma PythagoreanPicksHomeIff(g: LegacyGame)
    requires g.homeTeam != g.awayTeam
    ensures BasedOnPythagoreanExpectedWinPct(g).team == g.homeTeam <==> g.homeExpWinPct >= g.awayExpWinPct
  {
  }

  /** With home-field advantage the home team needs a lead of at least 0.08 in expected win percentage. */
  lemma HomeAdvantageNeedsLead(g: LegacyGame)
    requires g.homeTeam != g.awayTeam
    ensures BasedOnPythagoreanExpectedWinPctPlusHomeTeamAdvantage(g).team == g.homeTeam
            <==> g.homeExpWinPct - g.awayExpWinPct >= 0.08
    ensures BasedOnPythagoreanExpectedWinPctPlusHomeTeamAdvantage(g).team == g.homeTeam
            ==> BasedOnPythagoreanExpectedWinPct(g).team == g.homeTeam
  {
  }
}
