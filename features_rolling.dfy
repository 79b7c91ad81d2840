/**
 * Rolling team form: per-team game logs, and for every game the form of both
 * teams over their trailing window of earlier games.
 *
 * `x ** 1.83` has no closed form over the reals; the engine takes it as a
 * parameter `pyth`, of which it assumes only that it maps 0 to 0 and positive
 * numbers to positive numbers.
 */
module RollingForm {
  import opened GameRecords

  /** One game as seen from one team. */
  datatype LogEntry = LogEntry(runsScored: nat, runsAllowed: nat, won: bool)

  /** The four form columns of one team before one game. */
  datatype Form = Form(winPct: real, runDiff: real, pythWinPct: real, gamesPlayed: nat)

  /** The home team's and the away team's form before one game. */
  datatype FormRow = FormRow(home: Form, away: Form)

  /** What the model relies on of `x ** 1.83`. */
  ghost predicate ValidPythPower(pyth: real -> real)
  {
    pyth(0.0) == 0.0 && forall x :: x > 0.0 ==> pyth(x) > 0.0
  }

  function HomeEntry(g: Game): LogEntry
  {
    LogEntry(g.homeScore, g.awayScore, g.homeWin)
  }

  function AwayEntry(g: Game): LogEntry
  {
    LogEntry(g.awayScore, g.homeScore, !g.homeWin)
  }

  /** The entries game `g` adds to the log of `t`: the home entry first, then the away entry. */
  function GameEntries(g: Game, t: Team): seq<LogEntry>
  {
    (if g.home == t then [HomeEntry(g)] else []) + (if g.away == t then [AwayEntry(g)] else [])
  }

  /** The log of team `t` over the first `n` games, in game order. */
  function TeamLog(games: seq<Game>, n: nat, t: Team): seq<LogEntry>
    requires n <= |games|
  {
    if n == 0 then [] else TeamLog(games, n - 1, t) + GameEntries(games[n - 1], t)
  }

  /** How many sides of the first `n` games team `t` played. */
  function Appearances(games: seq<Game>, n: nat, t: Team): nat
    requires n <= |games|
  {
    if n == 0 then 0
    else Appearances(games, n - 1, t) + (if games[n - 1].home == t then 1 else 0) + (if games[n - 1].away == t then 1 else 0)
  }

  /**
   * `history[-window:]`.  Python slices from `len - window` (clamped at 0) for a
   * positive window; a window of 0 is `history[0:]`, the whole history.
   */
  function Recent(history: seq<LogEntry>, window: nat): (recent: seq<LogEntry>)
    ensures window == 0 || window >= |history| ==> recent == history
    ensures 0 < window < |history| ==> |recent| == window
    ensures history != [] ==> recent != []
    ensures |recent| <= |history| && recent == history[|history| - |recent|..]
  {
    var start := if window == 0 then 0 else if window >= |history| then 0 else |history| - window;
    history[start..]
  }

  function Wins(h: seq<LogEntry>): (w: nat)
    ensures w <= |h|
  {
    if h == [] then 0 else (if h[0].won then 1 else 0) + Wins(h[1..])
  }

  /** The runs scored over a history: at least those of any one entry. */
  function RunsScored(h: seq<LogEntry>): (r: nat)
    ensures forall k :: 0 <= k < |h| ==> h[k].runsScored <= r
  {
    if h == [] then 0 else h[0].runsScored + RunsScored(h[1..])
  }

  /** The runs allowed over a history: at least those of any one entry. */
  function RunsAllowed(h: seq<LogEntry>): (r: nat)
    ensures forall k :: 0 <= k < |h| ==> h[k].runsAllowed <= r
  {
    if h == [] then 0 else h[0].runsAllowed + RunsAllowed(h[1..])
  }

  /**
   * Pythagorean expectation `rs^1.83 / (rs^1.83 + ra^1.83)`, or 0.5 when no run
   * was scored or allowed: a probability, 1 for a team never scored upon and 0
   * for a team that never scored.
   */
  function Pythagorean(rs: nat, ra: nat, pyth: real -> real): (p: real)
    requires ValidPythPower(pyth)
    ensures 0.0 <= p <= 1.0
    ensures rs + ra == 0 ==> p == 0.5
    ensures rs > 0 && ra == 0 ==> p == 1.0
    ensures rs == 0 && ra > 0 ==> p == 0.0
  {
    if rs + ra > 0 then
      var s, a := pyth(rs as real), pyth(ra as real);
      assert s >= 0.0 && a >= 0.0 && s + a > 0.0;
      assert s / (s + a) * (s + a) == s;
      s / (s + a)
    else 0.5
  }

  /**
   * The form of a team with the given history: the defaults for a team
   * without games, otherwise averages over the trailing window.  The games
   * played count the whole history, whatever the window.
   */
  function FormOf(history: seq<LogEntry>, window: nat, pyth: real -> real): (f: Form)
    requires ValidPythPower(pyth)
    ensures f.gamesPlayed == |history|
    ensures history == [] ==> f == Form(0.5, 0.0, 0.5, 0)
    ensures 0.0 <= f.winPct <= 1.0 && 0.0 <= f.pythWinPct <= 1.0
  {
    var n := |history|;
    if n == 0 then Form(0.5, 0.0, 0.5, 0)
    else
      var recent := Recent(history, window);
      var wins, rs, ra := Wins(recent), RunsScored(recent), RunsAllowed(recent);
      var len := |recent| as real;
      WinRateBounds(wins, |recent|);
      Form(wins as real / len, (rs as real - ra as real) / len, Pythagorean(rs, ra, pyth), n)
  }

  /** A number of wins out of a non-empty window is a rate in [0, 1]. */
  lemma WinRateBounds(wins: nat, len: nat)
    requires 0 < len && wins <= len
    ensures 0.0 <= wins as real / len as real <= 1.0
  {
    assert wins as real / len as real * len as real == wins as real;
  }

  /** The history the home team's features read: the home team's log before game `i`. */
  function HomeHistory(games: seq<Game>, i: nat): seq<LogEntry>
    requires i < |games|
  {
    TeamLog(games, i, games[i].home)
  }

  /** The history the away team's features read; it already holds this game's home entry when a team plays itself. */
  function AwayHistory(games: seq<Game>, i: nat): seq<LogEntry>
    requires i < |games|
  {
    TeamLog(games, i, games[i].away) + (if games[i].home == games[i].away then [HomeEntry(games[i])] else [])
  }

  /** The form features of game `i`. */
  function FormRowAt(games: seq<Game>, i: nat, window: nat, pyth: real -> real): (r: FormRow)
    requires i < |games| && ValidPythPower(pyth)
    ensures 0.0 <= r.home.winPct <= 1.0 && 0.0 <= r.home.pythWinPct <= 1.0
    ensures 0.0 <= r.away.winPct <= 1.0 && 0.0 <= r.away.pythWinPct <= 1.0
    ensures r.home.gamesPlayed == Appearances(games, i, games[i].home)
    ensures r.away.gamesPlayed == Appearances(games, i, games[i].away) + (if games[i].home == games[i].away then 1 else 0)
  {
    LogLength(games, i, games[i].home);
    LogLength(games, i, games[i].away);
    FormRow(FormOf(HomeHistory(games, i), window, pyth), FormOf(AwayHistory(games, i), window, pyth))
  }

  /** The form rows of the first `n` games. */
  ghost function FormRowsBefore(games: seq<Game>, n: nat, window: nat, pyth: real -> real): (rows: seq<FormRow>)
    requires n <= |games| && ValidPythPower(pyth)
    ensures |rows| == n
    ensures forall j :: 0 <= j < n ==> rows[j] == FormRowAt(games, j, window, pyth)
  {
    if n == 0 then [] else FormRowsBefore(games, n - 1, window, pyth) + [FormRowAt(games, n - 1, window, pyth)]
  }

  /** Every team's log over all the games: the state after the first pass. */
  ghost predicate LogsComplete(games: seq<Game>, teams: set<Team>, logs: map<Team, seq<LogEntry>>)
  {
    AllTeamsIn(games, teams) && logs.Keys == teams && forall t :: t in logs ==> logs[t] == TeamLog(games, |games|, t)
  }

  /** The state of the second pass before game `i`: every history is the team's log so far, and every index its length. */
  ghost predicate HistoriesBefore(games: seq<Game>, i: nat, teams: set<Team>,
                                  histories: map<Team, seq<LogEntry>>, idx: map<Team, nat>)
    requires i <= |games|
  {
    && AllTeamsIn(games, teams) && histories.Keys == teams && idx.Keys == teams
    && forall t :: t in histories ==> histories[t] == TeamLog(games, i, t) && idx[t] == |histories[t]|
  }

  /** A log over fewer games is a prefix of the log over more games. */
  lemma {:induction false} TeamLogPrefix(games: seq<Game>, i: nat, j: nat, t: Team)
    requires i <= j <= |games|
    ensures TeamLog(games, i, t) <= TeamLog(games, j, t)
    decreases j - i
  {
    if i < j {
      TeamLogPrefix(games, i, j - 1, t);
      PrefixOfPrefix(TeamLog(games, i, t), TeamLog(games, j - 1, t), TeamLog(games, j, t));
    }
  }

  lemma PrefixOfPrefix<T>(a: seq<T>, b: seq<T>, c: seq<T>)
    requires a <= b && b <= c
    ensures a <= c
  {
    assert c[..|a|] == c[..|b|][..|a|];
  }

  /** The team's log is exactly as long as the number of sides it played. */
  lemma {:induction false} LogLength(games: seq<Game>, n: nat, t: Team)
    requires n <= |games|
    ensures |TeamLog(games, n, t)| == Appearances(games, n, t)
  {
    if n > 0 {
      LogLength(games, n - 1, t);
    }
  }

  /**
   * The second pass's step for one side: read the features from the
   * team's history, then append the team's next log entry and advance its
   * index.
   */
  method Observe(team: Team, histories: map<Team, seq<LogEntry>>, idx: map<Team, nat>,
                 logs: map<Team, seq<LogEntry>>, window: nat, pyth: real -> real,
                 ghost history: seq<LogEntry>, ghost entry: LogEntry)
    returns (form: Form, histories': map<Team, seq<LogEntry>>, idx': map<Team, nat>)
    requires team in histories && team in idx && team in logs && idx[team] < |logs[team]|
    requires histories[team] == history && logs[team][idx[team]] == entry && ValidPythPower(pyth)
    ensures form == FormOf(history, window, pyth)
    ensures histories' == Appended(histories, team, entry)
    ensures idx' == Bumped(idx, team)
  {
    form := FormOf(histories[team], window, pyth);
    var log := logs[team][idx[team]];
    histories' := histories[team := histories[team] + [log]];
    idx' := idx[team := idx[team] + 1];
  }

  /**
   * `compute_team_rolling_stats`: a first pass builds every team's log, a
   * second pass reads each team's history before appending the game's entry.
   */
  method ComputeTeamRollingStats(games: seq<Game>, window: nat, pyth: real -> real) returns (rows: seq<FormRow>)
    requires ValidPythPower(pyth)
    ensures |rows| == |games|
    ensures forall i :: 0 <= i < |games| ==> rows[i] == FormRowAt(games, i, window, pyth)
  {
    var teams := TeamsOf(games);
    var logs := BuildLogs(games, teams);

    var histories, idx := StartSecondPass(games, teams);
    rows := [];
    for i := 0 to |games|
      invariant HistoriesBefore(games, i, teams, histories, idx)
      invariant rows == FormRowsBefore(games, i, window, pyth)
    {
      var row;
      row, histories, idx := ObserveGame(games, i, teams, logs, histories, idx, window, pyth);
      rows := rows + [row];
    }
  }

  /** The second pass starts with an empty history and a zero index for every team. */
  method StartSecondPass(games: seq<Game>, teams: set<Team>)
    returns (histories: map<Team, seq<LogEntry>>, idx: map<Team, nat>)
    requires AllTeamsIn(games, teams)
    ensures HistoriesBefore(games, 0, teams, histories, idx)
  {
    idx := map t | t in teams :: 0;
    histories := EmptyLogs(teams);
  }

  /** The first pass: every team's log over all the games. */
  method BuildLogs(games: seq<Game>, teams: set<Team>) returns (logs: map<Team, seq<LogEntry>>)
    requires AllTeamsIn(games, teams)
    ensures LogsComplete(games, teams, logs)
  {
    logs := EmptyLogs(teams);
    for i := 0 to |games|
      invariant logs.Keys == teams
      invariant forall t :: t in logs ==> logs[t] == TeamLog(games, i, t)
    {
      logs := AppendGame(logs, games[i]);
    }
  }

  /** An empty log for each of `teams`. */
  function EmptyLogs(teams: set<Team>): (logs: map<Team, seq<LogEntry>>)
    ensures logs.Keys == teams && forall t :: t in logs ==> logs[t] == []
  {
    map t | t in teams :: []
  }

  /** One step of the first pass: the home team's log gets its entry, then the away team's. */
  method AppendGame(logs: map<Team, seq<LogEntry>>, g: Game) returns (next: map<Team, seq<LogEntry>>)
    requires g.home in logs && g.away in logs
    ensures next.Keys == logs.Keys
    ensures forall t :: t in next ==> next[t] == logs[t] + GameEntries(g, t)
  {
    var mid := logs[g.home := logs[g.home] + [HomeEntry(g)]];
    next := mid[g.away := mid[g.away] + [AwayEntry(g)]];
    assert next == Appended(Appended(logs, g.home, HomeEntry(g)), g.away, AwayEntry(g));
  }

  /** The histories once `team` has appended `entry`. */
  function Appended(histories: map<Team, seq<LogEntry>>, team: Team, entry: LogEntry): map<Team, seq<LogEntry>>
    requires team in histories
  {
    histories[team := histories[team] + [entry]]
  }

  /** The indexes once `team` has moved past one entry. */
  function Bumped(idx: map<Team, nat>, team: Team): map<Team, nat>
    requires team in idx
  {
    idx[team := idx[team] + 1]
  }

  /** The histories once both sides of `g` have appended their entries, home first. */
  function AfterGame(histories: map<Team, seq<LogEntry>>, g: Game): (after: map<Team, seq<LogEntry>>)
    requires g.home in histories && g.away in histories
    ensures after.Keys == histories.Keys
    ensures forall t :: t in after ==> after[t] == histories[t] + GameEntries(g, t)
  {
    var after := Appended(Appended(histories, g.home, HomeEntry(g)), g.away, AwayEntry(g));
    assert forall t :: t in after ==> after[t] == histories[t] + GameEntries(g, t) by {
      forall t | t in after
        ensures after[t] == histories[t] + GameEntries(g, t)
      {
        if t == g.home && t == g.away {
          assert after[t] == histories[t] + [HomeEntry(g)] + [AwayEntry(g)];
        }
      }
    }
    after
  }

  /** The indexes once both sides of `g` have advanced, home first. */
  function IndexesAfterGame(idx: map<Team, nat>, g: Game): (after: map<Team, nat>)
    requires g.home in idx && g.away in idx
    ensures after.Keys == idx.Keys
    ensures forall t :: t in after ==> after[t] == idx[t] + |GameEntries(g, t)|
  {
    Bumped(Bumped(idx, g.home), g.away)
  }

  /** One game of the second pass: the home side, then the away side. */
  method ObserveGame(games: seq<Game>, i: nat, teams: set<Team>, logs: map<Team, seq<LogEntry>>,
                     histories: map<Team, seq<LogEntry>>, idx: map<Team, nat>, window: nat, pyth: real -> real)
    returns (row: FormRow, histories': map<Team, seq<LogEntry>>, idx': map<Team, nat>)
    requires i < |games| && ValidPythPower(pyth)
    requires LogsComplete(games, teams, logs) && HistoriesBefore(games, i, teams, histories, idx)
    ensures row == FormRowAt(games, i, window, pyth)
    ensures HistoriesBefore(games, i + 1, teams, histories', idx')
  {
    var g := games[i];
    SecondPassStep(games, i, teams, logs, histories, idx);
    var homeForm, awayForm, midHistories, midIdx;
    homeForm, midHistories, midIdx := Observe(g.home, histories, idx, logs, window, pyth, histories[g.home], HomeEntry(g));
    BothSidesAppended(g, logs, idx, histories);
    assert midHistories[g.away] == AwayHistory(games, i);
    awayForm, histories', idx' := Observe(g.away, midHistories, midIdx, logs, window, pyth, midHistories[g.away], AwayEntry(g));
    row := FormRow(homeForm, awayForm);
    assert histories' == AfterGame(histories, g) && idx' == IndexesAfterGame(idx, g);
    NextHistories(games, i, teams, histories, idx);
  }

  /** After the home side has appended its entry, the away side's history is the away history of the game. */
  lemma BothSidesAppended(g: Game, logs: map<Team, seq<LogEntry>>, idx: map<Team, nat>, histories: map<Team, seq<LogEntry>>)
    requires NextEntriesAre(g, logs, idx) && g.home in histories && g.away in histories
    ensures Appended(histories, g.home, HomeEntry(g))[g.away] == histories[g.away] + (if g.home == g.away then [HomeEntry(g)] else [])
    ensures g.away in Bumped(idx, g.home) && Bumped(idx, g.home)[g.away] < |logs[g.away]|
    ensures logs[g.away][Bumped(idx, g.home)[g.away]] == AwayEntry(g)
  {
  }

  /** After both sides of game `i` the histories and indexes are those before game `i + 1`. */
  lemma NextHistories(games: seq<Game>, i: nat, teams: set<Team>,
                      histories: map<Team, seq<LogEntry>>, idx: map<Team, nat>)
    requires i < |games| && HistoriesBefore(games, i, teams, histories, idx)
    ensures games[i].home in histories && games[i].away in histories
    ensures games[i].home in idx && games[i].away in idx
    ensures HistoriesBefore(games, i + 1, teams, AfterGame(histories, games[i]), IndexesAfterGame(idx, games[i]))
  {
    var g := games[i];
    assert g.home in teams && g.away in teams;
    forall t | t in AfterGame(histories, g)
      ensures AfterGame(histories, g)[t] == TeamLog(games, i + 1, t)
    {
    }
  }

  /** The log entries at the teams' current indexes are game `g`'s own entries, home first. */
  predicate NextEntriesAre(g: Game, logs: map<Team, seq<LogEntry>>, idx: map<Team, nat>)
  {
    && g.home in logs && g.away in logs && g.home in idx && g.away in idx
    && idx[g.home] < |logs[g.home]| && logs[g.home][idx[g.home]] == HomeEntry(g)
    && (g.home == g.away ==> idx[g.away] + 1 < |logs[g.away]| && logs[g.away][idx[g.away] + 1] == AwayEntry(g))
    && (g.home != g.away ==> idx[g.away] < |logs[g.away]| && logs[g.away][idx[g.away]] == AwayEntry(g))
  }

  /**
   * Before game `i` the next entries of its teams' logs are this game's own
   * entries, home first: the entries the second pass appends.
   */
  lemma SecondPassStep(games: seq<Game>, i: nat, teams: set<Team>, logs: map<Team, seq<LogEntry>>,
                       histories: map<Team, seq<LogEntry>>, idx: map<Team, nat>)
    requires i < |games| && LogsComplete(games, teams, logs) && HistoriesBefore(games, i, teams, histories, idx)
    ensures NextEntriesAre(games[i], logs, idx)
    ensures games[i].home in histories && games[i].away in histories
    ensures histories[games[i].home] == HomeHistory(games, i)
    ensures histories[games[i].away] == TeamLog(games, i, games[i].away)
  {
    var g := games[i];
    assert g.home in teams && g.away in teams;
    HistoryIsStrictPrefix(games, i);
    if g.home == g.away {
      HomeEntryFollows(games, i);
      AwayEntryFollows(games, i);
      assert TeamLog(games, i + 1, g.away) == TeamLog(games, i, g.away) + [HomeEntry(g), AwayEntry(g)];
      TeamLogPrefix(games, i + 1, |games|, g.away);
    }
  }

  /** A team without earlier games has an empty log. */
  lemma {:induction false} UnseenLogIsEmpty(games: seq<Game>, n: nat, t: Team)
    requires n <= |games| && Unseen(games[..n], t)
    ensures TeamLog(games, n, t) == []
  {
    if n > 0 {
      assert !Plays(games[..n][n - 1], t);
      assert Unseen(games[..n - 1], t) by {
        forall k | 0 <= k < n - 1 ensures games[..n - 1][k] == games[..n][k] { }
      }
      UnseenLogIsEmpty(games, n - 1, t);
    }
  }

  /** A team's first game gets win pct 0.5, run differential 0, pythagorean 0.5 and 0 games played. */
  lemma FirstGameDefaults(games: seq<Game>, i: nat, window: nat, pyth: real -> real)
    requires i < |games| && ValidPythPower(pyth)
    ensures Unseen(games[..i], games[i].home) ==> FormRowAt(games, i, window, pyth).home == Form(0.5, 0.0, 0.5, 0)
    ensures Unseen(games[..i], games[i].away) && games[i].home != games[i].away
            ==> FormRowAt(games, i, window, pyth).away == Form(0.5, 0.0, 0.5, 0)
  {
    if Unseen(games[..i], games[i].home) {
      UnseenLogIsEmpty(games, i, games[i].home);
    }
    if Unseen(games[..i], games[i].away) {
      UnseenLogIsEmpty(games, i, games[i].away);
    }
  }

  /** The log after game `i` is the home history followed by the home entry (and the away entry, for a self-game). */
  lemma HomeEntryFollows(games: seq<Game>, i: nat)
    requires i < |games|
    ensures HomeHistory(games, i) + [HomeEntry(games[i])] <= TeamLog(games, i + 1, games[i].home)
  {
  }

  /** The away history followed by the away entry is the away team's log after game `i`. */
  lemma AwayEntryFollows(games: seq<Game>, i: nat)
    requires i < |games|
    ensures AwayHistory(games, i) + [AwayEntry(games[i])] == TeamLog(games, i + 1, games[i].away)
  {
    var g := games[i];
    if g.home == g.away {
      assert GameEntries(g, g.away) == [HomeEntry(g), AwayEntry(g)];
    }
  }

  /**
   * No look-ahead: each history is a strict prefix of the team's full log,
   * and the entry that follows it is the current game's own entry.
   */
  lemma HistoryIsStrictPrefix(games: seq<Game>, i: nat)
    requires i < |games|
    ensures HomeHistory(games, i) + [HomeEntry(games[i])] <= TeamLog(games, |games|, games[i].home)
    ensures AwayHistory(games, i) + [AwayEntry(games[i])] <= TeamLog(games, |games|, games[i].away)
  {
    var g := games[i];
    HomeEntryFollows(games, i);
    TeamLogPrefix(games, i + 1, |games|, g.home);
    PrefixOfPrefix(HomeHistory(games, i) + [HomeEntry(g)], TeamLog(games, i + 1, g.home), TeamLog(games, |games|, g.home));
    AwayEntryFollows(games, i);
    TeamLogPrefix(games, i + 1, |games|, g.away);
  }

  /** Logs over games that agree up to `n` agree. */
  lemma {:induction false} TeamLogAgrees(games: seq<Game>, other: seq<Game>, n: nat, t: Team)
    requires n <= |games| && n <= |other|
    requires forall k :: 0 <= k < n ==> games[k] == other[k]
    ensures TeamLog(games, n, t) == TeamLog(other, n, t)
  {
    if n > 0 {
      TeamLogAgrees(games, other, n - 1, t);
    }
  }

  /** A game's form features are fixed by that game and the games before it. */
  lemma NoLookAhead(games: seq<Game>, other: seq<Game>, i: nat, window: nat, pyth: real -> real)
    requires i < |games| && i < |other| && ValidPythPower(pyth)
    requires games[..i + 1] == other[..i + 1]
    ensures FormRowAt(games, i, window, pyth) == FormRowAt(other, i, window, pyth)
  {
    forall k | 0 <= k < i + 1 ensures games[k] == other[k] {
      assert games[k] == games[..i + 1][k];
    }
    TeamLogAgrees(games, other, i, games[i].home);
    TeamLogAgrees(games, other, i, games[i].away);
  }

  /**
   * With a positive window the form reads only the last `window` entries:
   * two histories of at least `window` entries that end alike give the same
   * rates.
   */
  lemma WindowIgnoresOlderGames(h1: seq<LogEntry>, h2: seq<LogEntry>, window: nat, pyth: real -> real)
    requires ValidPythPower(pyth) && 0 < window <= |h1| && window <= |h2|
    requires h1[|h1| - window..] == h2[|h2| - window..]
    ensures FormOf(h1, window, pyth).winPct == FormOf(h2, window, pyth).winPct
    ensures FormOf(h1, window, pyth).runDiff == FormOf(h2, window, pyth).runDiff
    ensures FormOf(h1, window, pyth).pythWinPct == FormOf(h2, window, pyth).pythWinPct
  {
  }

  /**
   * The rates are averages over the last `min(n, window)` entries (all of them
   * for a window of 0).
   */
  lemma FormIsWindowAverage(history: seq<LogEntry>, window: nat, pyth: real -> real)
    requires ValidPythPower(pyth) && history != []
    ensures var k := if window == 0 || window >= |history| then |history| else window;
            var recent := history[|history| - k..];
            && FormOf(history, window, pyth).winPct == Wins(recent) as real / k as real
            && FormOf(history, window, pyth).runDiff == (RunsScored(recent) as real - RunsAllowed(recent) as real) / k as real
            && FormOf(history, window, pyth).pythWinPct == Pythagorean(RunsScored(recent), RunsAllowed(recent), pyth)
  {
    var k := if window == 0 || window >= |history| then |history| else window;
    var recent := Recent(history, window);
    assert |recent| == k;
    assert recent == history[|history| - k..];
  }
}
