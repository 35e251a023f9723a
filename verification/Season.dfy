/** A season: one pass over the game log updates both teams of every recognised game
    and the season's own payroll and record counters; the collation adds the teams'
    counters to the season's. */
module Season {
  import opened Options
  import opened TeamHistory

  const NUM_TEAMS := 30
  const RLTV_RECORD_MIN_GAMES := 10
  const RLTV_RECORD_THRESHOLD := 0.1
  const RLTV_PAYROLL_THRESHOLD := 1.333

  const CITY_CODES: seq<string> := [
    "ANA", "HOU", "OAK", "ATL", "TOR", "MIL", "SLN", "CHN", "ARI", "LAN",
    "SFN", "CLE", "SEA", "MIA", "NYN", "WAS", "BAL", "SDN", "PHI", "PIT",
    "TBA", "TEX", "BOS", "CIN", "COL", "KCA", "DET", "MIN", "CHA", "NYA"]

  /** One line of the game log; an empty stolen-bases field is None. */
  datatype Entry = Entry(
    visitor: string, hometeam: string, vstrScore: int, homeScore: int, outs: int,
    vstrStolenBases: Option<int>, homeStolenBases: Option<int>)

  datatype SeasonState = SeasonState(
    teams: seq<Team>, stats: Stats, winningRuns: int, losingRuns: int,
    totalGames: nat, hmXtraInnWins: nat, xtraInnGms: nat, stolenBases: nat)

  // ----- which team -------------------------------------------------------------------

  function IndexOf(codes: seq<string>, code: string, j: nat): (i: int)
    requires j <= |codes|
    ensures -1 <= i < |codes|
    ensures i >= 0 ==> codes[i] == code
    decreases |codes| - j
  {
    if j == |codes| then -1 else if codes[j] == code then j else IndexOf(codes, code, j + 1)
  }

  /** Older codes stand for the team that descends from them. */
  function Renamed(code: string): string {
    if code == "FLO" then "MIA"
    else if code == "SLA" then "BAL"
    else if code == "PHA" then "OAK"
    else if code == "WS1" then "MIN"
    else if code == "BRO" then "LAN"
    else if code == "NY1" then "SFN"
    else if code == "BSN" then "ATL"
    else code
  }

  /** AssignTeamIndx: -1 for a code that no team has had. */
  function TeamIndex(code: string): (i: int)
    ensures -1 <= i < NUM_TEAMS
  {
    var i := IndexOf(CITY_CODES, code, 0);
    if i >= 0 then i else IndexOf(CITY_CODES, Renamed(code), 0)
  }

  lemma {:induction false} IndexOfFinds(codes: seq<string>, code: string, j: nat)
    requires j <= |codes|
    ensures var i := IndexOf(codes, code, j);
      if i < 0 then code !in codes[j..] else j <= i && code !in codes[j..i]
    decreases |codes| - j
  {
    if j < |codes| && codes[j] != code {
      IndexOfFinds(codes, code, j + 1);
      assert codes[j..] == [codes[j]] + codes[j + 1..];
      var i := IndexOf(codes, code, j + 1);
      if i >= 0 {
        assert codes[j..i] == [codes[j]] + codes[j + 1..i];
      }
    }
  }

  /** A current code stands for itself and any other one for the team that descends from
      it; the index is the first one of that team, and only a code that is neither
      current nor has a current descendant has none. */
  lemma TeamIndexFinds(code: string)
    ensures var i, meant := TeamIndex(code), if code in CITY_CODES then code else Renamed(code);
      && (i == -1 <==> meant !in CITY_CODES)
      && (i >= 0 ==> CITY_CODES[i] == meant && meant !in CITY_CODES[..i])
  {
    hide Renamed;
    IndexOfFinds(CITY_CODES, code, 0);
    IndexOfFinds(CITY_CODES, Renamed(code), 0);
    assert CITY_CODES[0..] == CITY_CODES;
  }

  // ----- payroll and record as predictors -----------------------------------------------

  function MaxOf(a: nat, b: nat): nat {
    if a > b then a else b
  }

  function MinOf(a: nat, b: nat): nat {
    if a < b then a else b
  }

  /** The larger payroll is at least 1.333 times the smaller. */
  predicate PayrollsDiffer(home: nat, vstr: nat) {
    MaxOf(home, vstr) as real >= MinOf(home, vstr) as real * RLTV_PAYROLL_THRESHOLD
  }

  predicate PayrollConfirms(home: nat, vstr: nat, homeWin: bool) {
    (home > vstr && homeWin) || (home < vstr && !homeWin)
  }

  predicate EnoughGames(t: Team) {
    t.gamesSampled >= RLTV_RECORD_MIN_GAMES
  }

  function WinRatio(t: Team): real {
    if t.gamesSampled == 0 then 0.5 else t.wins as real / t.gamesSampled as real
  }

  function Abs(x: real): real {
    if x < 0.0 then -x else x
  }

  predicate RecordsDiffer(home: Team, vstr: Team) {
    EnoughGames(home) && EnoughGames(vstr) && Abs(WinRatio(home) - WinRatio(vstr)) >= RLTV_RECORD_THRESHOLD
  }

  predicate RecordConfirms(home: Team, vstr: Team, homeWin: bool) {
    (WinRatio(home) > WinRatio(vstr) && homeWin) || (WinRatio(home) < WinRatio(vstr) && !homeWin)
  }

  /** The two thresholds in whole numbers. */
  lemma PayrollsDifferIff(home: nat, vstr: nat)
    ensures PayrollsDiffer(home, vstr) <==> 1000 * MaxOf(home, vstr) >= 1333 * MinOf(home, vstr)
  {
  }

  lemma RatioProduct(x: real, w: real, n: real, n': real)
    requires n > 0.0 && x == w / n
    ensures x * (n * n') == w * n'
  {
    assert x * n == w;
    assert x * (n * n') == (x * n) * n';
  }

  lemma TenthOf(d: real, m: real, p: real)
    requires m > 0.0 && p == d * m
    ensures d >= 0.1 <==> 10.0 * p >= m
    ensures -d >= 0.1 <==> -10.0 * p >= m
    ensures d > 0.0 <==> p > 0.0
  {
    assert (10.0 * d - 1.0) * m == 10.0 * p - m && (-10.0 * d - 1.0) * m == -10.0 * p - m;
    SameSign(10.0 * d - 1.0, m);
    SameSign(-10.0 * d - 1.0, m);
    SameSign(-d, m);
    assert (-d) * m == -p;
  }

  lemma SameSign(x: real, m: real)
    requires m > 0.0
    ensures x >= 0.0 <==> x * m >= 0.0
  {
    if x < 0.0 {
      assert (-x) * m > 0.0;
    }
  }

  lemma Distance(d: real, m: real, p: real, top: int, bottom: int)
    requires m > 0.0 && p == d * m && p == top as real && bottom as real == m
    ensures d >= 0.1 <==> 10 * top >= bottom
    ensures -d >= 0.1 <==> -10 * top >= bottom
    ensures d > 0.0 <==> top > 0
  {
    TenthOf(d, m, p);
    WholeNumbers(p, m, top, bottom);
  }

  lemma WholeNumbers(p: real, m: real, top: int, bottom: int)
    requires p == top as real && m == bottom as real
    ensures 10.0 * p >= m <==> 10 * top >= bottom
    ensures -10.0 * p >= m <==> -10 * top >= bottom
  {
    assert 10.0 * p == (10 * top) as real && -10.0 * p == (-10 * top) as real;
  }

  lemma RatioDistance(w: nat, n: nat, w': nat, n': nat)
    requires n > 0 && n' > 0
    ensures var d := w as real / n as real - w' as real / n' as real;
      && (d >= RLTV_RECORD_THRESHOLD <==> 10 * (w * n' - w' * n) >= n * n')
      && (-d >= RLTV_RECORD_THRESHOLD <==> 10 * (w' * n - w * n') >= n * n')
      && (d > 0.0 <==> w * n' > w' * n)
  {
    var x, y := w as real / n as real, w' as real / n' as real;
    var m := n as real * n' as real;
    RatioProduct(x, w as real, n as real, n' as real);
    RatioProduct(y, w' as real, n' as real, n as real);
    Products(w, n, w', n');
    assert (x - y) * m == x * m - y * m;
    Distance(x - y, m, (x - y) * m, w * n' - w' * n, n * n');
  }

  lemma Products(w: nat, n: nat, w': nat, n': nat)
    requires n > 0 && n' > 0
    ensures (n * n') as real == n as real * n' as real > 0.0
    ensures (w * n' - w' * n) as real == w as real * n' as real - w' as real * n as real
  {
  }

  lemma RecordsDifferIff(home: Team, vstr: Team)
    ensures var w, n, w', n' := home.wins, home.gamesSampled, vstr.wins, vstr.gamesSampled;
      && (RecordsDiffer(home, vstr) <==> n >= 10 && n' >= 10 && (10 * (w * n' - w' * n) >= n * n' || 10 * (w' * n - w * n') >= n * n'))
      && (RecordsDiffer(home, vstr) ==> (WinRatio(home) > WinRatio(vstr) <==> w * n' > w' * n))
  {
    if home.gamesSampled >= 10 && vstr.gamesSampled >= 10 {
      RatioDistance(home.wins, home.gamesSampled, vstr.wins, vstr.gamesSampled);
    }
  }

  // ----- one game ---------------------------------------------------------------------------

  predicate Recognised(e: Entry) {
    TeamIndex(e.visitor) != -1 && TeamIndex(e.hometeam) != -1
  }

  predicate HomeWins(e: Entry) {
    e.homeScore > e.vstrScore
  }

  function Steals(t: Team, n: Option<int>): Team {
    if n.Some? && n.value > -1 then t.(stolenBases := t.stolenBases + n.value) else t
  }

  /** The game as its visitor and its home team see it. The scores are compared with the
      number 0 as strings, so that no game counts as a shutout. */
  function VisitorGame(e: Entry): Game {
    Game(false, HomeWins(e), e.outs > 54, false)
  }

  function HomeGame(e: Entry): Game {
    Game(true, HomeWins(e), e.outs > 54, false)
  }

  function SeasonStats(stats: Stats, home: Team, vstr: Team, homeWin: bool): Stats {
    var s := if home.payroll + vstr.payroll > 0 && PayrollsDiffer(home.payroll, vstr.payroll)
             then Sample(stats, RLTV_PAYROLL_DX, PayrollConfirms(home.payroll, vstr.payroll, homeWin)) else stats;
    if RecordsDiffer(home, vstr) then Sample(s, RLTV_RECORD_DX, RecordConfirms(home, vstr, homeWin)) else s
  }

  function WithSteals(teams: seq<Team>, e: Entry): (r: seq<Team>)
    requires |teams| == NUM_TEAMS && Recognised(e)
    ensures |r| == NUM_TEAMS
  {
    var v, h := TeamIndex(e.visitor), TeamIndex(e.hometeam);
    var teams0 := teams[h := Steals(teams[h], e.homeStolenBases)];
    teams0[v := Steals(teams0[v], e.vstrStolenBases)]
  }

  /** ExtractGameData: first the season's counters, from both teams' records before the
      game; then the visitor, then the home team. */
  function ExtractGame(s: SeasonState, e: Entry): (s': SeasonState)
    requires |s.teams| == NUM_TEAMS
    ensures |s'.teams| == NUM_TEAMS
  {
    if !Recognised(e) then s
    else
      var v, h := TeamIndex(e.visitor), TeamIndex(e.hometeam);
      var teams1 := WithSteals(s.teams, e);
      var teams2 := teams1[v := TeamStep(teams1[v], VisitorGame(e))];
      s.(teams := teams2[h := TeamStep(teams2[h], HomeGame(e))],
         stats := SeasonStats(s.stats, teams1[h], teams1[v], HomeWins(e)),
         winningRuns := s.winningRuns + (if HomeWins(e) then e.homeScore else e.vstrScore),
         losingRuns := s.losingRuns + (if HomeWins(e) then e.vstrScore else e.homeScore))
  }

  /** The season after the first j entries of the log. */
  function SeasonAfter(s: SeasonState, log: seq<Entry>, j: nat): (s': SeasonState)
    requires |s.teams| == NUM_TEAMS && j <= |log|
    ensures |s'.teams| == NUM_TEAMS
  {
    if j == 0 then s else ExtractGame(SeasonAfter(s, log, j - 1), log[j - 1])
  }

  /** How many of the first j games were accepted, and how many of those the home team won. */
  function Accepted(log: seq<Entry>, j: nat): nat
    requires j <= |log|
  {
    if j == 0 then 0 else Accepted(log, j - 1) + if Recognised(log[j - 1]) then 1 else 0
  }

  function HomeVictories(log: seq<Entry>, j: nat): nat
    requires j <= |log|
  {
    if j == 0 then 0 else HomeVictories(log, j - 1) + if Recognised(log[j - 1]) && HomeWins(log[j - 1]) then 1 else 0
  }

  ghost predicate NewSeason(s: SeasonState) {
    && |s.teams| == NUM_TEAMS && (forall i :: 0 <= i < NUM_TEAMS ==> Fresh(s.teams[i]) && s.teams[i].stolenBases == 0)
    && s.stats == NO_STATS && s.winningRuns == 0 && s.losingRuns == 0
    && s.totalGames == 0 && s.hmXtraInnWins == 0 && s.xtraInnGms == 0 && s.stolenBases == 0
  }

  // ----- every team's state is its own games' ---------------------------------------------------

  /** Team i's games with those of one more entry. */
  function WithEntry(i: nat, e: Entry, games: seq<Game>): seq<Game> {
    if !Recognised(e) then games
    else
      var afterVisit := if TeamIndex(e.visitor) == i then games + [VisitorGame(e)] else games;
      if TeamIndex(e.hometeam) == i then afterVisit + [HomeGame(e)] else afterVisit
  }

  /** The games team i played among the first j entries, in order. */
  function GamesOf(i: nat, log: seq<Entry>, j: nat): seq<Game>
    requires j <= |log|
  {
    if j == 0 then [] else WithEntry(i, log[j - 1], GamesOf(i, log, j - 1))
  }

  /** A team without its stolen bases, which the season adds outside the team's games. */
  function Core(t: Team): Team {
    t.(stolenBases := 0)
  }

  lemma StepIgnoresSteals(t: Team, g: Game)
    ensures Core(TeamStep(t, g)) == TeamStep(Core(t), g)
  {
    hide HistoryValue, Sample;
  }

  lemma {:induction false} TeamAfterPrefix(t: Team, games: seq<Game>, more: seq<Game>, j: nat)
    requires j <= |games|
    ensures TeamAfter(t, games + more, j) == TeamAfter(t, games, j)
  {
    hide TeamStep;
    if j > 0 {
      TeamAfterPrefix(t, games, more, j - 1);
    }
  }

  lemma TeamAfterOneMore(t: Team, games: seq<Game>, g: Game)
    ensures TeamAfter(t, games + [g], |games| + 1) == TeamStep(TeamAfter(t, games, |games|), g)
  {
    TeamAfterPrefix(t, games, [g], |games|);
    hide TeamStep;
  }

  /** The team has come from t0 through these games. */
  ghost predicate CameFrom(t: Team, t0: Team, games: seq<Game>) {
    Core(t) == TeamAfter(t0, games, |games|)
  }

  /** However the log interleaves the teams, each team ends as it would alone. */
  lemma {:induction false} TeamsAreIndependent(s: SeasonState, log: seq<Entry>, j: nat, i: nat)
    requires |s.teams| == NUM_TEAMS && j <= |log| && i < NUM_TEAMS
    ensures CameFrom(SeasonAfter(s, log, j).teams[i], Core(s.teams[i]), GamesOf(i, log, j))
  {
    if j > 0 {
      hide *;
      OneMoreEntry(s, log, j, i);
      TeamsAreIndependent(s, log, j - 1, i);
      IndependentStep(SeasonAfter(s, log, j - 1), log[j - 1], i, Core(s.teams[i]), GamesOf(i, log, j - 1));
    } else {
      hide Core, TeamIndex, ExtractGame;
    }
  }

  lemma OneMoreEntry(s: SeasonState, log: seq<Entry>, j: nat, i: nat)
    requires |s.teams| == NUM_TEAMS && 0 < j <= |log|
    ensures SeasonAfter(s, log, j) == ExtractGame(SeasonAfter(s, log, j - 1), log[j - 1])
    ensures GamesOf(i, log, j) == WithEntry(i, log[j - 1], GamesOf(i, log, j - 1))
    ensures Accepted(log, j) == Accepted(log, j - 1) + if Recognised(log[j - 1]) then 1 else 0
    ensures HomeVictories(log, j) == HomeVictories(log, j - 1) + if Recognised(log[j - 1]) && HomeWins(log[j - 1]) then 1 else 0
  {
    hide ExtractGame, WithEntry, Recognised, HomeWins;
  }

  lemma IndependentStep(s: SeasonState, e: Entry, i: nat, t0: Team, games: seq<Game>)
    requires |s.teams| == NUM_TEAMS && i < NUM_TEAMS && CameFrom(s.teams[i], t0, games)
    ensures CameFrom(ExtractGame(s, e).teams[i], t0, WithEntry(i, e, games))
  {
    if Recognised(e) {
      hide TeamStep, TeamAfter, Steals, Core, SeasonStats, TeamIndex;
      var v, h := TeamIndex(e.visitor), TeamIndex(e.hometeam);
      var teams1 := WithSteals(s.teams, e);
      var teams2 := teams1[v := TeamStep(teams1[v], VisitorGame(e))];
      StealsKeepCore(s.teams, e, i);
      var afterVisit := if v == i then games + [VisitorGame(e)] else games;
      IndependentTeam(teams1[i], VisitorGame(e), t0, games);
      IndependentTeam(teams2[i], HomeGame(e), t0, afterVisit);
      assert CameFrom(teams2[i], t0, afterVisit);
    }
  }

  lemma StealsKeepCore(teams: seq<Team>, e: Entry, i: nat)
    requires |teams| == NUM_TEAMS && Recognised(e) && i < NUM_TEAMS
    ensures Core(WithSteals(teams, e)[i]) == Core(teams[i])
  {
    hide TeamIndex;
  }

  lemma IndependentTeam(t: Team, g: Game, t0: Team, games: seq<Game>)
    ensures CameFrom(t, t0, games) ==> CameFrom(TeamStep(t, g), t0, games + [g])
  {
    hide TeamStep, TeamAfter, Core;
    StepIgnoresSteals(t, g);
    TeamAfterOneMore(t0, games, g);
  }

  // ----- collation -----------------------------------------------------------------------------------

  function AddColumns(a: Column, b: Column): (c: Column)
    ensures forall k :: 0 <= k < NUM_PREDICTORS ==> c[k] == a[k] + b[k]
  {
    [a[0] + b[0], a[1] + b[1], a[2] + b[2], a[3] + b[3], a[4] + b[4]]
  }

  /** The season after its first j teams have been added in. */
  function CollateTeams(s: SeasonState, j: nat): (s': SeasonState)
    requires j <= |s.teams|
    ensures s'.teams == s.teams
  {
    if j == 0 then s
    else
      var p, t := CollateTeams(s, j - 1), s.teams[j - 1];
      p.(stats := Stats(AddColumns(p.stats.smplSz, t.stats.smplSz), AddColumns(p.stats.cnfrmd, t.stats.cnfrmd)),
         hmXtraInnWins := p.hmXtraInnWins + t.hmXtraInnWins,
         xtraInnGms := p.xtraInnGms + t.hmXtraInnGms,
         stolenBases := p.stolenBases + t.stolenBases)
  }

  /** CollateSeasonData. */
  function Collate(s: SeasonState, examined: nat): SeasonState
    requires |s.teams| == NUM_TEAMS
  {
    CollateTeams(s.(totalGames := examined), NUM_TEAMS)
  }

  // ----- conservation over the season --------------------------------------------------------------------

  /** The counters a season is summed over. */
  datatype Tally = Wins | Games | HomeXtra | HomeXtraWins | Stolen | Smpl(k: nat) | Cnf(k: nat)

  function Get(t: Team, y: Tally): nat
    requires y.Smpl? || y.Cnf? ==> y.k < NUM_PREDICTORS
  {
    match y
    case Wins => t.wins
    case Games => t.gamesSampled
    case HomeXtra => t.hmXtraInnGms
    case HomeXtraWins => t.hmXtraInnWins
    case Stolen => t.stolenBases
    case Smpl(k) => t.stats.smplSz[k]
    case Cnf(k) => t.stats.cnfrmd[k]
  }

  function Total(teams: seq<Team>, y: Tally, j: nat): nat
    requires j <= |teams|
    requires y.Smpl? || y.Cnf? ==> y.k < NUM_PREDICTORS
  {
    if j == 0 then 0 else Total(teams, y, j - 1) + Get(teams[j - 1], y)
  }

  lemma {:induction false} TotalUpdate(teams: seq<Team>, y: Tally, i: nat, t: Team, j: nat)
    requires i < |teams| && j <= |teams|
    requires y.Smpl? || y.Cnf? ==> y.k < NUM_PREDICTORS
    ensures Total(teams[i := t], y, j) == Total(teams, y, j) + if i < j then Get(t, y) - Get(teams[i], y) else 0
  {
    hide Get;
    if j > 0 {
      TotalUpdate(teams, y, i, t, j - 1);
    }
  }

  /** What one game adds to one team's counters. */
  lemma StepTallies(t: Team, g: Game)
    ensures var u := TeamStep(t, g);
      && Get(u, Games) == Get(t, Games) + 1
      && Get(u, Wins) == Get(t, Wins) + (if g.home == g.homeWin then 1 else 0)
      && Get(u, HomeXtra) == Get(t, HomeXtra) + (if g.home && g.xtraInns then 1 else 0)
      && Get(u, HomeXtraWins) == Get(t, HomeXtraWins) + (if g.home && g.xtraInns && g.homeWin then 1 else 0)
      && Get(u, Stolen) == Get(t, Stolen)
      && Get(u, Smpl(HOME_WIN_DX)) == Get(t, Smpl(HOME_WIN_DX)) + (if g.home then 1 else 0)
      && Get(u, Cnf(HOME_WIN_DX)) == Get(t, Cnf(HOME_WIN_DX)) + (if g.home && g.homeWin then 1 else 0)
      && Get(u, Smpl(RLTV_PAYROLL_DX)) == Get(t, Smpl(RLTV_PAYROLL_DX)) && Get(u, Cnf(RLTV_PAYROLL_DX)) == Get(t, Cnf(RLTV_PAYROLL_DX))
      && Get(u, Smpl(RLTV_RECORD_DX)) == Get(t, Smpl(RLTV_RECORD_DX)) && Get(u, Cnf(RLTV_RECORD_DX)) == Get(t, Cnf(RLTV_RECORD_DX))
      && (forall k | k == TEAM_HISTORY_DX || k == TEAM_MOMENTUM_DX ::
            0 <= Get(u, Cnf(k)) - Get(t, Cnf(k)) <= Get(u, Smpl(k)) - Get(t, Smpl(k)) <= 1)
  {
    hide HistoryValue;
  }

  /** Both teams' shares of a game add up in the totals, also when a team plays itself. */
  lemma GameTotals(s: SeasonState, e: Entry, y: Tally)
    requires |s.teams| == NUM_TEAMS && Recognised(e) && y != Stolen && (y.Smpl? || y.Cnf? ==> y.k < NUM_PREDICTORS)
    ensures var teams1 := WithSteals(s.teams, e);
      var v, h := TeamIndex(e.visitor), TeamIndex(e.hometeam);
      var teams2 := teams1[v := TeamStep(teams1[v], VisitorGame(e))];
      Total(ExtractGame(s, e).teams, y, NUM_TEAMS)
      == Total(s.teams, y, NUM_TEAMS)
       + Get(TeamStep(teams1[v], VisitorGame(e)), y) - Get(teams1[v], y)
       + Get(TeamStep(teams2[h], HomeGame(e)), y) - Get(teams2[h], y)
  {
    hide TeamStep, SeasonStats, TeamIndex, Get, Total;
    var v, h := TeamIndex(e.visitor), TeamIndex(e.hometeam);
    var teams0 := s.teams[h := Steals(s.teams[h], e.homeStolenBases)];
    var teams1 := WithSteals(s.teams, e);
    var teams2 := teams1[v := TeamStep(teams1[v], VisitorGame(e))];
    TotalUpdate(s.teams, y, h, Steals(s.teams[h], e.homeStolenBases), NUM_TEAMS);
    TotalUpdate(teams0, y, v, Steals(teams0[v], e.vstrStolenBases), NUM_TEAMS);
    StealsKeepTallies(s.teams[h], e.homeStolenBases, y);
    StealsKeepTallies(teams0[v], e.vstrStolenBases, y);
    TotalUpdate(teams1, y, v, TeamStep(teams1[v], VisitorGame(e)), NUM_TEAMS);
    TotalUpdate(teams2, y, h, TeamStep(teams2[h], HomeGame(e)), NUM_TEAMS);
  }

  lemma StealsKeepTallies(t: Team, n: Option<int>, y: Tally)
    requires y != Stolen
    requires y.Smpl? || y.Cnf? ==> y.k < NUM_PREDICTORS
    ensures Get(Steals(t, n), y) == Get(t, y)
  {
  }

  /** The totals over all teams after some accepted games and home victories. */
  ghost predicate TeamTotals(teams: seq<Team>, accepted: nat, victories: nat)
    requires |teams| == NUM_TEAMS
  {
    && Total(teams, Wins, NUM_TEAMS) == accepted
    && Total(teams, Games, NUM_TEAMS) == 2 * accepted
    && Total(teams, Smpl(HOME_WIN_DX), NUM_TEAMS) == accepted
    && Total(teams, Cnf(HOME_WIN_DX), NUM_TEAMS) == victories <= accepted
    && Total(teams, Smpl(RLTV_PAYROLL_DX), NUM_TEAMS) == 0 && Total(teams, Cnf(RLTV_PAYROLL_DX), NUM_TEAMS) == 0
    && Total(teams, Smpl(RLTV_RECORD_DX), NUM_TEAMS) == 0 && Total(teams, Cnf(RLTV_RECORD_DX), NUM_TEAMS) == 0
    && Total(teams, Cnf(TEAM_HISTORY_DX), NUM_TEAMS) <= Total(teams, Smpl(TEAM_HISTORY_DX), NUM_TEAMS) <= 2 * accepted
    && Total(teams, Cnf(TEAM_MOMENTUM_DX), NUM_TEAMS) <= Total(teams, Smpl(TEAM_MOMENTUM_DX), NUM_TEAMS) <= 2 * accepted
  }

  lemma TeamTotalsStep(s: SeasonState, e: Entry, accepted: nat, victories: nat)
    requires |s.teams| == NUM_TEAMS && Recognised(e) && TeamTotals(s.teams, accepted, victories)
    ensures TeamTotals(ExtractGame(s, e).teams, accepted + 1, victories + if HomeWins(e) then 1 else 0)
  {
    hide TeamStep, SeasonStats, TeamIndex, Get, Total, ExtractGame, WithSteals, HomeWins;
    var v, h := TeamIndex(e.visitor), TeamIndex(e.hometeam);
    var teams1 := WithSteals(s.teams, e);
    var teams2 := teams1[v := TeamStep(teams1[v], VisitorGame(e))];
    StepTallies(teams1[v], VisitorGame(e));
    StepTallies(teams2[h], HomeGame(e));
    GameTotals(s, e, Wins);
    GameTotals(s, e, Games);
    GameTotals(s, e, Smpl(HOME_WIN_DX));
    GameTotals(s, e, Cnf(HOME_WIN_DX));
    GameTotals(s, e, Smpl(RLTV_PAYROLL_DX));
    GameTotals(s, e, Cnf(RLTV_PAYROLL_DX));
    GameTotals(s, e, Smpl(RLTV_RECORD_DX));
    GameTotals(s, e, Cnf(RLTV_RECORD_DX));
    GameTotals(s, e, Smpl(TEAM_HISTORY_DX));
    GameTotals(s, e, Cnf(TEAM_HISTORY_DX));
    GameTotals(s, e, Smpl(TEAM_MOMENTUM_DX));
    GameTotals(s, e, Cnf(TEAM_MOMENTUM_DX));
  }

  /** The season's own counters before collation: payroll and record only, each at most
      once per accepted game. */
  ghost predicate OwnStats(stats: Stats, accepted: nat) {
    && stats.smplSz[HOME_WIN_DX] == stats.smplSz[TEAM_HISTORY_DX] == stats.smplSz[TEAM_MOMENTUM_DX] == 0
    && stats.cnfrmd[HOME_WIN_DX] == stats.cnfrmd[TEAM_HISTORY_DX] == stats.cnfrmd[TEAM_MOMENTUM_DX] == 0
    && stats.cnfrmd[RLTV_PAYROLL_DX] <= stats.smplSz[RLTV_PAYROLL_DX] <= accepted
    && stats.cnfrmd[RLTV_RECORD_DX] <= stats.smplSz[RLTV_RECORD_DX] <= accepted
  }

  lemma OwnStatsStep(stats: Stats, home: Team, vstr: Team, homeWin: bool, accepted: nat)
    requires OwnStats(stats, accepted)
    ensures OwnStats(SeasonStats(stats, home, vstr, homeWin), accepted + 1)
  {
    hide PayrollsDiffer, PayrollConfirms, RecordsDiffer, RecordConfirms;
  }

  lemma {:induction false} NothingYet(teams: seq<Team>, y: Tally, j: nat)
    requires j <= |teams| && (y.Smpl? || y.Cnf? ==> y.k < NUM_PREDICTORS)
    requires y != Stolen && forall i :: 0 <= i < |teams| ==> Fresh(teams[i])
    ensures Total(teams, y, j) == 0
  {
    if j > 0 {
      NothingYet(teams, y, j - 1);
    }
  }

  lemma NewTotals(s: SeasonState)
    requires NewSeason(s)
    ensures TeamTotals(s.teams, 0, 0) && OwnStats(s.stats, 0)
  {
    hide Total, Fresh;
    NothingYet(s.teams, Wins, NUM_TEAMS);
    NothingYet(s.teams, Games, NUM_TEAMS);
    forall k | 0 <= k < NUM_PREDICTORS
      ensures Total(s.teams, Smpl(k), NUM_TEAMS) == 0 && Total(s.teams, Cnf(k), NUM_TEAMS) == 0
    {
      NothingYet(s.teams, Smpl(k), NUM_TEAMS);
      NothingYet(s.teams, Cnf(k), NUM_TEAMS);
    }
  }

  /** The books of a season that has not been collated. */
  ghost predicate Books(s: SeasonState, accepted: nat, victories: nat) {
    && |s.teams| == NUM_TEAMS && TeamTotals(s.teams, accepted, victories) && OwnStats(s.stats, accepted)
  }

  lemma BooksStep(s: SeasonState, e: Entry, accepted: nat, victories: nat)
    requires Books(s, accepted, victories)
    ensures Books(ExtractGame(s, e), accepted + (if Recognised(e) then 1 else 0),
                  victories + (if Recognised(e) && HomeWins(e) then 1 else 0))
  {
    hide TeamTotals, OwnStats, TeamStep, SeasonStats, HomeWins;
    if Recognised(e) {
      TeamTotalsStep(s, e, accepted, victories);
      var teams1 := WithSteals(s.teams, e);
      OwnStatsStep(s.stats, teams1[TeamIndex(e.hometeam)], teams1[TeamIndex(e.visitor)], HomeWins(e), accepted);
    }
  }

  lemma NewBooks(s: SeasonState, log: seq<Entry>)
    requires NewSeason(s)
    ensures |s.teams| == NUM_TEAMS
    ensures Books(SeasonAfter(s, log, 0), Accepted(log, 0), HomeVictories(log, 0))
  {
    NewTotals(s);
    hide NewSeason, TeamTotals, OwnStats, ExtractGame, TeamIndex;
  }

  lemma {:induction false} SeasonBooks(s: SeasonState, log: seq<Entry>, j: nat)
    requires NewSeason(s) && |s.teams| == NUM_TEAMS && j <= |log|
    ensures Books(SeasonAfter(s, log, j), Accepted(log, j), HomeVictories(log, j))
  {
    hide *;
    if j == 0 {
      NewBooks(s, log);
    } else {
      OneMoreEntry(s, log, j, 0);
      SeasonBooks(s, log, j - 1);
      BooksStep(SeasonAfter(s, log, j - 1), log[j - 1], Accepted(log, j - 1), HomeVictories(log, j - 1));
    }
  }

  lemma {:induction false} CollateAdds(s: SeasonState, j: nat, k: nat)
    requires j <= |s.teams| && k < NUM_PREDICTORS
    ensures var c := CollateTeams(s, j);
      && c.stats.smplSz[k] == s.stats.smplSz[k] + Total(s.teams, Smpl(k), j)
      && c.stats.cnfrmd[k] == s.stats.cnfrmd[k] + Total(s.teams, Cnf(k), j)
      && c.totalGames == s.totalGames
  {
    if j > 0 {
      CollateAdds(s, j - 1, k);
    }
  }

  ghost predicate NeverOverconfirmed(stats: Stats) {
    forall k :: 0 <= k < NUM_PREDICTORS ==> stats.cnfrmd[k] <= stats.smplSz[k]
  }

  /** What a collated season of n games and some home victories looks like. */
  ghost predicate Balanced(c: SeasonState, n: nat, victories: nat) {
    && |c.teams| == NUM_TEAMS && c.totalGames == n
    && Total(c.teams, Wins, NUM_TEAMS) == n && Total(c.teams, Games, NUM_TEAMS) == 2 * n
    && c.stats.smplSz[HOME_WIN_DX] == n && c.stats.cnfrmd[HOME_WIN_DX] == victories
    && c.stats.smplSz[TEAM_HISTORY_DX] <= 2 * n && c.stats.smplSz[TEAM_MOMENTUM_DX] <= 2 * n
    && c.stats.smplSz[RLTV_PAYROLL_DX] <= n && c.stats.smplSz[RLTV_RECORD_DX] <= n
    && NeverOverconfirmed(c.stats)
  }

  lemma CollatedBooks(s: SeasonState, n: nat, victories: nat)
    requires Books(s, n, victories)
    ensures Balanced(Collate(s, n), n, victories)
  {
    hide Total, CollateTeams;
    var t := s.(totalGames := n);
    CollateAdds(t, NUM_TEAMS, HOME_WIN_DX);
    CollateAdds(t, NUM_TEAMS, RLTV_PAYROLL_DX);
    CollateAdds(t, NUM_TEAMS, RLTV_RECORD_DX);
    CollateAdds(t, NUM_TEAMS, TEAM_HISTORY_DX);
    CollateAdds(t, NUM_TEAMS, TEAM_MOMENTUM_DX);
  }

  /** After any game log and one collation: the teams' wins add up to the accepted games
      and their games to twice that; the home predictor was sampled once per game and
      confirmed once per home victory; history and momentum at most twice per game,
      payroll and record at most once; and no predictor was confirmed more often than
      sampled. */
  lemma SeasonConserves(s: SeasonState, log: seq<Entry>)
    requires NewSeason(s)
    ensures var n := Accepted(log, |log|);
      Balanced(Collate(SeasonAfter(s, log, |log|), n), n, HomeVictories(log, |log|))
  {
    NewBooks(s, log);
    SeasonBooks(s, log, |log|);
    hide *;
    CollatedBooks(SeasonAfter(s, log, |log|), Accepted(log, |log|), HomeVictories(log, |log|));
  }

  // ----- extra innings, stolen bases and runs -------------------------------------------------------------

  predicate GoesExtra(e: Entry) {
    e.outs > 54
  }

  /** Accepted games that went to extra innings, and those of them that the home team won. */
  function ExtraGames(log: seq<Entry>, j: nat): nat
    requires j <= |log|
  {
    if j == 0 then 0 else ExtraGames(log, j - 1) + if Recognised(log[j - 1]) && GoesExtra(log[j - 1]) then 1 else 0
  }

  function ExtraVictories(log: seq<Entry>, j: nat): nat
    requires j <= |log|
  {
    if j == 0 then 0
    else ExtraVictories(log, j - 1) + if Recognised(log[j - 1]) && GoesExtra(log[j - 1]) && HomeWins(log[j - 1]) then 1 else 0
  }

  /** A stolen-bases field that is there and not negative. */
  function Recorded(n: Option<int>): nat {
    if n.Some? && n.value > -1 then n.value else 0
  }

  /** The stolen bases recorded in accepted games. */
  function StolenBases(log: seq<Entry>, j: nat): nat
    requires j <= |log|
  {
    if j == 0 then 0
    else
      StolenBases(log, j - 1)
      + if Recognised(log[j - 1]) then Recorded(log[j - 1].homeStolenBases) + Recorded(log[j - 1].vstrStolenBases) else 0
  }

  function Higher(e: Entry): int {
    if e.homeScore > e.vstrScore then e.homeScore else e.vstrScore
  }

  function Lower(e: Entry): int {
    if e.homeScore > e.vstrScore then e.vstrScore else e.homeScore
  }

  /** The runs of the better and of the worse side over the accepted games. */
  function HighRuns(log: seq<Entry>, j: nat): int
    requires j <= |log|
  {
    if j == 0 then 0 else HighRuns(log, j - 1) + if Recognised(log[j - 1]) then Higher(log[j - 1]) else 0
  }

  function LowRuns(log: seq<Entry>, j: nat): int
    requires j <= |log|
  {
    if j == 0 then 0 else LowRuns(log, j - 1) + if Recognised(log[j - 1]) then Lower(log[j - 1]) else 0
  }

  ghost predicate ExtraTotals(s: SeasonState, extra: nat, victories: nat, stolen: nat) {
    && |s.teams| == NUM_TEAMS
    && Total(s.teams, HomeXtra, NUM_TEAMS) == extra && Total(s.teams, HomeXtraWins, NUM_TEAMS) == victories
    && Total(s.teams, Stolen, NUM_TEAMS) == stolen
    && s.xtraInnGms == 0 && s.hmXtraInnWins == 0 && s.stolenBases == 0
  }

  /** Only the steals of a game change the total of stolen bases. */
  lemma StolenTotals(s: SeasonState, e: Entry)
    requires |s.teams| == NUM_TEAMS && Recognised(e)
    ensures Total(ExtractGame(s, e).teams, Stolen, NUM_TEAMS)
         == Total(s.teams, Stolen, NUM_TEAMS) + Recorded(e.homeStolenBases) + Recorded(e.vstrStolenBases)
  {
    hide TeamStep, SeasonStats, TeamIndex, Get, Total, Recorded;
    var v, h := TeamIndex(e.visitor), TeamIndex(e.hometeam);
    var teams0 := s.teams[h := Steals(s.teams[h], e.homeStolenBases)];
    var teams1 := WithSteals(s.teams, e);
    var teams2 := teams1[v := TeamStep(teams1[v], VisitorGame(e))];
    TotalUpdate(s.teams, Stolen, h, Steals(s.teams[h], e.homeStolenBases), NUM_TEAMS);
    TotalUpdate(teams0, Stolen, v, Steals(teams0[v], e.vstrStolenBases), NUM_TEAMS);
    StealsAdd(s.teams[h], e.homeStolenBases);
    StealsAdd(teams0[v], e.vstrStolenBases);
    TotalUpdate(teams1, Stolen, v, TeamStep(teams1[v], VisitorGame(e)), NUM_TEAMS);
    TotalUpdate(teams2, Stolen, h, TeamStep(teams2[h], HomeGame(e)), NUM_TEAMS);
    StepTallies(teams1[v], VisitorGame(e));
    StepTallies(teams2[h], HomeGame(e));
  }

  lemma StealsAdd(t: Team, n: Option<int>)
    ensures Get(Steals(t, n), Stolen) == Get(t, Stolen) + Recorded(n)
  {
  }

  lemma ExtraTallies(t: Team, g: Game)
    ensures var u := TeamStep(t, g);
      && Get(u, HomeXtra) == Get(t, HomeXtra) + (if g.home && g.xtraInns then 1 else 0)
      && Get(u, HomeXtraWins) == Get(t, HomeXtraWins) + (if g.home && g.xtraInns && g.homeWin then 1 else 0)
  {
    StepTallies(t, g);
  }

  lemma ExtraStep(s: SeasonState, e: Entry, extra: nat, victories: nat, stolen: nat)
    requires Recognised(e) && ExtraTotals(s, extra, victories, stolen)
    ensures ExtraTotals(ExtractGame(s, e), extra + (if GoesExtra(e) then 1 else 0),
                        victories + (if GoesExtra(e) && HomeWins(e) then 1 else 0),
                        stolen + Recorded(e.homeStolenBases) + Recorded(e.vstrStolenBases))
  {
    hide TeamStep, SeasonStats, TeamIndex, Get, Total, ExtractGame, WithSteals, HomeWins, Recorded, GoesExtra;
    SameOwnCounters(s, e);
    ExtraGameTotals(s, e);
    StolenTotals(s, e);
  }

  lemma ExtraGameTotals(s: SeasonState, e: Entry)
    requires |s.teams| == NUM_TEAMS && Recognised(e)
    ensures var teams := ExtractGame(s, e).teams;
      && Total(teams, HomeXtra, NUM_TEAMS) == Total(s.teams, HomeXtra, NUM_TEAMS) + (if GoesExtra(e) then 1 else 0)
      && Total(teams, HomeXtraWins, NUM_TEAMS)
         == Total(s.teams, HomeXtraWins, NUM_TEAMS) + (if GoesExtra(e) && HomeWins(e) then 1 else 0)
  {
    hide TeamStep, SeasonStats, TeamIndex, Get, Total, ExtractGame, WithSteals, HomeWins;
    var v, h := TeamIndex(e.visitor), TeamIndex(e.hometeam);
    var teams1 := WithSteals(s.teams, e);
    var teams2 := teams1[v := TeamStep(teams1[v], VisitorGame(e))];
    ExtraTallies(teams1[v], VisitorGame(e));
    ExtraTallies(teams2[h], HomeGame(e));
    GameTotals(s, e, HomeXtra);
    GameTotals(s, e, HomeXtraWins);
  }

  lemma SameOwnCounters(s: SeasonState, e: Entry)
    requires |s.teams| == NUM_TEAMS && Recognised(e)
    ensures var c := ExtractGame(s, e);
      && c.xtraInnGms == s.xtraInnGms && c.hmXtraInnWins == s.hmXtraInnWins && c.stolenBases == s.stolenBases
      && c.winningRuns == s.winningRuns + Higher(e) && c.losingRuns == s.losingRuns + Lower(e)
  {
    hide TeamStep, SeasonStats, TeamIndex, Steals;
  }

  /** The stolen bases recorded for team i. */
  function StolenBy(i: nat, log: seq<Entry>, j: nat): nat
    requires j <= |log|
  {
    if j == 0 then 0
    else
      var e := log[j - 1];
      StolenBy(i, log, j - 1)
      + (if Recognised(e) && TeamIndex(e.hometeam) == i then Recorded(e.homeStolenBases) else 0)
      + (if Recognised(e) && TeamIndex(e.visitor) == i then Recorded(e.vstrStolenBases) else 0)
  }

  lemma StolenStep(s: SeasonState, e: Entry, i: nat)
    requires |s.teams| == NUM_TEAMS && i < NUM_TEAMS && Recognised(e)
    ensures ExtractGame(s, e).teams[i].stolenBases
         == s.teams[i].stolenBases
          + (if TeamIndex(e.hometeam) == i then Recorded(e.homeStolenBases) else 0)
          + (if TeamIndex(e.visitor) == i then Recorded(e.vstrStolenBases) else 0)
  {
    var v, h := TeamIndex(e.visitor), TeamIndex(e.hometeam);
    var teams1 := WithSteals(s.teams, e);
    assert teams1[i].stolenBases == s.teams[i].stolenBases + (if h == i then Recorded(e.homeStolenBases) else 0)
                                    + (if v == i then Recorded(e.vstrStolenBases) else 0) by {
      hide TeamIndex;
    }
    hide TeamIndex, TeamStep, SeasonStats, WithSteals, Recorded;
    var teams2 := teams1[v := TeamStep(teams1[v], VisitorGame(e))];
    StepTallies(teams1[i], VisitorGame(e));
    StepTallies(teams2[i], HomeGame(e));
  }

  /** Each team ends with the stolen bases recorded for it, at home and away. */
  lemma {:induction false} OwnStolenBases(s: SeasonState, log: seq<Entry>, j: nat, i: nat)
    requires |s.teams| == NUM_TEAMS && j <= |log| && i < NUM_TEAMS
    ensures SeasonAfter(s, log, j).teams[i].stolenBases == s.teams[i].stolenBases + StolenBy(i, log, j)
  {
    hide TeamIndex, ExtractGame, Recorded, Recognised;
    if j > 0 {
      var t, e := SeasonAfter(s, log, j - 1), log[j - 1];
      OwnStolenBases(s, log, j - 1, i);
      if Recognised(e) {
        StolenStep(t, e, i);
      } else {
        RejectedChangesNothing(t, e);
      }
    }
  }

  lemma {:induction false} NothingStolen(teams: seq<Team>, j: nat)
    requires j <= |teams| && forall i :: 0 <= i < |teams| ==> teams[i].stolenBases == 0
    ensures Total(teams, Stolen, j) == 0
  {
    if j > 0 {
      NothingStolen(teams, j - 1);
    }
  }

  lemma {:induction false} ExtraBooks(s: SeasonState, log: seq<Entry>, j: nat)
    requires NewSeason(s) && |s.teams| == NUM_TEAMS && j <= |log|
    ensures var t := SeasonAfter(s, log, j);
      && ExtraTotals(t, ExtraGames(log, j), ExtraVictories(log, j), StolenBases(log, j))
      && t.winningRuns == HighRuns(log, j) && t.losingRuns == LowRuns(log, j)
  {
    hide TeamIndex, ExtractGame, Total, Higher, Lower, Recorded, GoesExtra, HomeWins, Recognised;
    if j == 0 {
      NothingYet(s.teams, HomeXtra, NUM_TEAMS);
      NothingYet(s.teams, HomeXtraWins, NUM_TEAMS);
      NothingStolen(s.teams, NUM_TEAMS);
    } else {
      hide NewSeason, ExtraTotals;
      var t, e := SeasonAfter(s, log, j - 1), log[j - 1];
      ExtraBooks(s, log, j - 1);
      if Recognised(e) {
        ExtraStep(t, e, ExtraGames(log, j - 1), ExtraVictories(log, j - 1), StolenBases(log, j - 1));
        SameOwnCounters(t, e);
      } else {
        RejectedChangesNothing(t, e);
      }
    }
  }

  lemma RejectedChangesNothing(s: SeasonState, e: Entry)
    requires |s.teams| == NUM_TEAMS && !Recognised(e)
    ensures ExtractGame(s, e) == s
  {
    hide TeamIndex;
  }

  lemma {:induction false} CollateAddsRest(s: SeasonState, j: nat)
    requires j <= |s.teams|
    ensures var c := CollateTeams(s, j);
      && c.xtraInnGms == s.xtraInnGms + Total(s.teams, HomeXtra, j)
      && c.hmXtraInnWins == s.hmXtraInnWins + Total(s.teams, HomeXtraWins, j)
      && c.stolenBases == s.stolenBases + Total(s.teams, Stolen, j)
      && c.winningRuns == s.winningRuns && c.losingRuns == s.losingRuns && c.totalGames == s.totalGames
  {
    if j > 0 {
      CollateAddsRest(s, j - 1);
    }
  }

  lemma {:induction false} ExtraWithinGames(log: seq<Entry>, j: nat)
    requires j <= |log|
    ensures ExtraVictories(log, j) <= ExtraGames(log, j) <= Accepted(log, j)
    ensures LowRuns(log, j) <= HighRuns(log, j)
  {
    hide Recognised;
    if j > 0 {
      ExtraWithinGames(log, j - 1);
    }
  }

  /** After any game log and one collation: the season's extra-inning games are the accepted
      games that went to extra innings, each counted once although two teams played it,
      its home victories in extra innings those the home team won; its stolen bases are the
      recorded ones of both sides; and its winning and losing runs add up the better and
      the worse score of every accepted game. */
  lemma SeasonExtras(s: SeasonState, log: seq<Entry>)
    requires NewSeason(s)
    ensures var n := Accepted(log, |log|);
      var c := Collate(SeasonAfter(s, log, |log|), n);
      && c.xtraInnGms == ExtraGames(log, |log|) && c.hmXtraInnWins == ExtraVictories(log, |log|)
      && c.hmXtraInnWins <= c.xtraInnGms <= c.totalGames == n
      && c.stolenBases == StolenBases(log, |log|)
      && c.winningRuns == HighRuns(log, |log|) >= c.losingRuns == LowRuns(log, |log|)
  {
    assert |s.teams| == NUM_TEAMS;
    hide *;
    ExtraBooks(s, log, |log|);
    CollatedExtras(SeasonAfter(s, log, |log|), Accepted(log, |log|),
                   ExtraGames(log, |log|), ExtraVictories(log, |log|), StolenBases(log, |log|));
    ExtraWithinGames(log, |log|);
  }

  lemma CollatedExtras(s: SeasonState, n: nat, extra: nat, victories: nat, stolen: nat)
    requires ExtraTotals(s, extra, victories, stolen)
    ensures var c := Collate(s, n);
      && c.xtraInnGms == extra && c.hmXtraInnWins == victories && c.stolenBases == stolen && c.totalGames == n
      && c.winningRuns == s.winningRuns && c.losingRuns == s.losingRuns
  {
    hide Total, CollateTeams;
    CollateAddsRest(s.(totalGames := n), NUM_TEAMS);
  }

  // ----- the season in place -----------------------------------------------------------------------------

  /** The states of the first j teams. */
  ghost function StatesOf(teams: seq<TeamData>, j: nat): (r: seq<Team>)
    requires j <= |teams|
    reads teams
    ensures |r| == j && forall i :: 0 <= i < j ==> r[i] == teams[i].State()
  {
    if j == 0 then [] else StatesOf(teams, j - 1) + [teams[j - 1].State()]
  }

  class SeasonData {
    const teamData: seq<TeamData>
    var smplSz: Column
    var cnfrmd: Column
    var totalWinningRuns: int
    var totalLosingRuns: int
    var totalGames: nat
    var hmXtraInnWins: nat
    var xtraInnGms: nat
    var totalStolenBases: nat

    ghost predicate Valid() {
      |teamData| == NUM_TEAMS && forall i, j :: 0 <= i < j < NUM_TEAMS ==> teamData[i] != teamData[j]
    }

    ghost function State(): SeasonState
      requires Valid()
      reads this, teamData
    {
      SeasonState(StatesOf(teamData, NUM_TEAMS), Stats(smplSz, cnfrmd), totalWinningRuns, totalLosingRuns,
                  totalGames, hmXtraInnWins, xtraInnGms, totalStolenBases)
    }

    constructor (teams: seq<TeamData>)
      requires |teams| == NUM_TEAMS && forall i, j :: 0 <= i < j < NUM_TEAMS ==> teams[i] != teams[j]
      ensures Valid() && teamData == teams
      ensures State() == SeasonState(StatesOf(teams, NUM_TEAMS), NO_STATS, 0, 0, 0, 0, 0, 0)
    {
      teamData := teams;
      smplSz, cnfrmd := [0, 0, 0, 0, 0], [0, 0, 0, 0, 0];
      totalWinningRuns, totalLosingRuns := 0, 0;
      totalGames, hmXtraInnWins, xtraInnGms, totalStolenBases := 0, 0, 0, 0;
    }

    /** One team's game within the season. */
    method ProcessOneTeam(dx: nat, g: Game)
      requires Valid() && dx < NUM_TEAMS
      modifies teamData[dx]
      ensures Valid()
      ensures State() == old(State()).(teams := old(State()).teams[dx := TeamStep(old(State()).teams[dx], g)])
    {
      hide TeamStep;
      teamData[dx].ProcessGame(g);
      assert State().teams == old(State()).teams[dx := TeamStep(old(State()).teams[dx], g)];
    }

    method AddSteals(dx: nat, n: Option<int>)
      requires Valid() && dx < NUM_TEAMS
      modifies teamData[dx]
      ensures Valid()
      ensures State() == old(State()).(teams := old(State()).teams[dx := Steals(old(State()).teams[dx], n)])
    {
      match n {
        case None =>
        case Some(k) =>
          if k > -1 {
            teamData[dx].stolenBases := teamData[dx].stolenBases + k;
          }
      }
      assert State().teams == old(State()).teams[dx := Steals(old(State()).teams[dx], n)];
    }

    /** The season's payroll and record counters. */
    method CountPredictors(home: nat, vstr: nat, homeWin: bool)
      requires Valid() && home < NUM_TEAMS && vstr < NUM_TEAMS
      modifies `smplSz, `cnfrmd
      ensures Valid()
      ensures State() == old(State()).(stats := SeasonStats(old(State()).stats, old(State()).teams[home], old(State()).teams[vstr], homeWin))
    {
      hide PayrollsDiffer, RecordsDiffer, RecordConfirms, WinRatio;
      var h, v := teamData[home], teamData[vstr];
      if h.payroll + v.payroll > 0 {
        if PayrollsDiffer(h.payroll, v.payroll) {
          smplSz := smplSz[RLTV_PAYROLL_DX := smplSz[RLTV_PAYROLL_DX] + 1];
          if h.payroll > v.payroll && homeWin {
            cnfrmd := cnfrmd[RLTV_PAYROLL_DX := cnfrmd[RLTV_PAYROLL_DX] + 1];
          }
          if h.payroll < v.payroll && !homeWin {
            cnfrmd := cnfrmd[RLTV_PAYROLL_DX := cnfrmd[RLTV_PAYROLL_DX] + 1];
          }
        }
      }
      CountRecord(home, vstr, homeWin);
    }

    method CountRecord(home: nat, vstr: nat, homeWin: bool)
      requires Valid() && home < NUM_TEAMS && vstr < NUM_TEAMS
      modifies `smplSz, `cnfrmd
      ensures Valid()
      ensures var s, t, u := old(State()).stats, old(State()).teams[home], old(State()).teams[vstr];
        State() == old(State()).(stats := if RecordsDiffer(t, u) then Sample(s, RLTV_RECORD_DX, RecordConfirms(t, u, homeWin)) else s)
    {
      var h, v := teamData[home], teamData[vstr];
      if h.gamesSampled >= RLTV_RECORD_MIN_GAMES && v.gamesSampled >= RLTV_RECORD_MIN_GAMES {
        var homeWinRatio := h.wins as real / h.gamesSampled as real;
        var vstrWinRatio := v.wins as real / v.gamesSampled as real;
        assert homeWinRatio == WinRatio(h.State()) && vstrWinRatio == WinRatio(v.State());
        hide WinRatio;
        if Abs(homeWinRatio - vstrWinRatio) >= RLTV_RECORD_THRESHOLD {
          smplSz := smplSz[RLTV_RECORD_DX := smplSz[RLTV_RECORD_DX] + 1];
          if homeWinRatio > vstrWinRatio && homeWin {
            cnfrmd := cnfrmd[RLTV_RECORD_DX := cnfrmd[RLTV_RECORD_DX] + 1];
          }
          if homeWinRatio < vstrWinRatio && !homeWin {
            cnfrmd := cnfrmd[RLTV_RECORD_DX := cnfrmd[RLTV_RECORD_DX] + 1];
          }
        }
      }
    }

    /** The winning and the losing side's runs. */
    method AddRuns(e: Entry)
      requires Valid()
      modifies `totalWinningRuns, `totalLosingRuns
      ensures Valid()
      ensures var s := old(State());
        State() == s.(winningRuns := s.winningRuns + (if HomeWins(e) then e.homeScore else e.vstrScore),
                      losingRuns := s.losingRuns + (if HomeWins(e) then e.vstrScore else e.homeScore))
    {
      hide StatesOf;
      var homeWin := e.homeScore > e.vstrScore;
      totalWinningRuns := totalWinningRuns + if homeWin then e.homeScore else e.vstrScore;
      totalLosingRuns := totalLosingRuns + if homeWin then e.vstrScore else e.homeScore;
    }

    /** The visitor's record first, then the home team's. */
    method ProcessBothTeams(v: nat, h: nat, e: Entry)
      requires Valid() && v < NUM_TEAMS && h < NUM_TEAMS
      modifies teamData
      ensures Valid()
      ensures var teams := old(State()).teams;
        var teams2 := teams[v := TeamStep(teams[v], VisitorGame(e))];
        State() == old(State()).(teams := teams2[h := TeamStep(teams2[h], HomeGame(e))])
    {
      hide TeamStep, StatesOf, VisitorGame, HomeGame;
      ProcessOneTeam(v, VisitorGame(e));
      ProcessOneTeam(h, HomeGame(e));
    }

    method ExtractGameData(e: Entry) returns (accepted: bool)
      requires Valid()
      modifies this, teamData
      ensures Valid()
      ensures accepted <==> Recognised(e)
      ensures State() == ExtractGame(old(State()), e)
    {
      hide TeamIndex, TeamStep, Steals, WithSteals, SeasonStats, StatesOf, VisitorGame, HomeGame, HomeWins;
      var v, h := TeamIndex(e.visitor), TeamIndex(e.hometeam);
      if h == -1 || v == -1 {
        return false;
      }
      AddRuns(e);
      RecordSteals(e);
      CountPredictors(h, v, HomeWins(e));
      ProcessBothTeams(v, h, e);
      return true;
    }

    method RecordSteals(e: Entry)
      requires Valid() && Recognised(e)
      modifies teamData
      ensures Valid()
      ensures State() == old(State()).(teams := WithSteals(old(State()).teams, e))
    {
      hide TeamIndex, Steals, StatesOf;
      AddSteals(TeamIndex(e.hometeam), e.homeStolenBases);
      AddSteals(TeamIndex(e.visitor), e.vstrStolenBases);
    }

    method CollateSeasonData(examined: nat)
      requires Valid()
      modifies this
      ensures Valid()
      ensures State() == Collate(old(State()), examined)
    {
      hide StatesOf, AddColumns;
      totalGames := examined;
      ghost var s := State();
      var j := 0;
      while j < NUM_TEAMS
        invariant 0 <= j <= NUM_TEAMS
        invariant State() == CollateTeams(s, j)
      {
        hide StatesOf, AddColumns;
        var t := teamData[j];
        assert State().teams[j] == t.State() == s.teams[j];
        smplSz := AddColumns(smplSz, t.smplSz);
        cnfrmd := AddColumns(cnfrmd, t.cnfrmd);
        hmXtraInnWins := hmXtraInnWins + t.hmXtraInnWins;
        xtraInnGms := xtraInnGms + t.hmXtraInnGms;
        totalStolenBases := totalStolenBases + t.stolenBases;
        j := j + 1;
      }
    }
  }
}
