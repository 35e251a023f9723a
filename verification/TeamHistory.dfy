/** One team's season: what `ProcessGameDataOneTeam` keeps up to date after each game,
    and what those counters amount to when read off the list of results. */
module TeamHistory {

  const MOMENTUM_THRESHOLD := 3
  const RECENT_HISTORY_LEN := 12
  const HISTORY_HALF_LEN := 6

  const HOME_WIN_DX := 0
  const RLTV_PAYROLL_DX := 1
  const RLTV_RECORD_DX := 2
  const TEAM_HISTORY_DX := 3
  const TEAM_MOMENTUM_DX := 4
  const NUM_PREDICTORS := 5

  const WIN := 1
  const LOSS := -1

  type Result = r: int | r == WIN || r == LOSS witness WIN
  type History = h: seq<int> | |h| == RECENT_HISTORY_LEN witness seq(12, _ => 0)
  type Column = c: seq<nat> | |c| == NUM_PREDICTORS witness [0, 0, 0, 0, 0]

  /** One row of counters per predictor: sample size and confirmed. */
  datatype Stats = Stats(smplSz: Column, cnfrmd: Column)

  datatype Team = Team(
    payroll: nat, gamesSampled: nat, wins: nat, xtraInnGms: nat, hmXtraInnGms: nat, hmXtraInnWins: nat,
    shutouts: nat, stolenBases: nat, gameHist: History, stats: Stats,
    currMomentum: nat, winStrks: nat, lossStrks: nat)

  /** A game as one of its two teams sees it. */
  datatype Game = Game(home: bool, homeWin: bool, xtraInns: bool, shutout: bool)

  const NO_STATS := Stats([0, 0, 0, 0, 0], [0, 0, 0, 0, 0])

  ghost predicate Fresh(t: Team) {
    && t.gamesSampled == 0 && t.wins == 0 && t.xtraInnGms == 0 && t.hmXtraInnGms == 0 && t.hmXtraInnWins == 0 && t.shutouts == 0
    && (forall i :: 0 <= i < RECENT_HISTORY_LEN ==> t.gameHist[i] == 0) && t.stats == NO_STATS
    && t.currMomentum == 0 && t.winStrks == 0 && t.lossStrks == 0
  }

  function Bump(c: Column, k: nat): Column
    requires k < NUM_PREDICTORS
  {
    c[k := c[k] + 1]
  }

  /** One more sample of predictor k, confirmed or not. */
  function Sample(s: Stats, k: nat, confirmed: bool): Stats
    requires k < NUM_PREDICTORS
  {
    Stats(Bump(s.smplSz, k), if confirmed then Bump(s.cnfrmd, k) else s.cnfrmd)
  }

  function Count(h: seq<int>, r: int, j: nat): nat
    requires j <= |h|
  {
    if j == 0 then 0 else Count(h, r, j - 1) + if h[j - 1] == r then 1 else 0
  }

  /** GetHistoryValue. */
  function HistoryValue(h: History): int {
    if h[0] == 0 then 0
    else
      var wins := Count(h, WIN, RECENT_HISTORY_LEN);
      if wins > HISTORY_HALF_LEN + 1 then 1 else if wins < HISTORY_HALF_LEN - 1 then -1 else 0
  }

  function ResultOf(g: Game): Result {
    if g.home == g.homeWin then WIN else LOSS
  }

  /** The plain counters of one game. */
  function CountGame(t: Team, g: Game): Team {
    var win := ResultOf(g) == WIN;
    t.(gamesSampled := t.gamesSampled + 1,
       wins := t.wins + if win then 1 else 0,
       xtraInnGms := t.xtraInnGms + if g.xtraInns then 1 else 0,
       hmXtraInnGms := t.hmXtraInnGms + if g.xtraInns && g.home then 1 else 0,
       hmXtraInnWins := t.hmXtraInnWins + if g.xtraInns && g.home && win then 1 else 0,
       shutouts := t.shutouts + if g.shutout then 1 else 0,
       stats := if g.home then Sample(t.stats, HOME_WIN_DX, win) else t.stats)
  }

  /** Compare the game with the one before it. */
  function TrackMomentum(t: Team, thisGame: Result): Team {
    var last := t.gameHist[RECENT_HISTORY_LEN - 1];
    var prevGame: int := if last == 0 then 0 - thisGame else last;
    var same := thisGame == prevGame;
    var momentum := t.currMomentum + if same then 1 else 0;
    var active := momentum >= MOMENTUM_THRESHOLD;
    t.(stats := if active then Sample(t.stats, TEAM_MOMENTUM_DX, same) else t.stats,
       currMomentum := if same then momentum else 0,
       winStrks := t.winStrks + if !same && active && prevGame == WIN then 1 else 0,
       lossStrks := t.lossStrks + if !same && active && prevGame == LOSS then 1 else 0)
  }

  /** Compare the game with what the history predicted and append it. */
  function TrackHistory(t: Team, thisGame: Result): Team {
    var v := HistoryValue(t.gameHist);
    t.(stats := if v != 0 then Sample(t.stats, TEAM_HISTORY_DX, thisGame == v) else t.stats,
       gameHist := t.gameHist[1..] + [thisGame])
  }

  /** ProcessGameDataOneTeam. */
  function TeamStep(t: Team, g: Game): Team {
    TrackHistory(TrackMomentum(CountGame(t, g), ResultOf(g)), ResultOf(g))
  }

  /** The team after its first j games. */
  function TeamAfter(t: Team, games: seq<Game>, j: nat): Team
    requires j <= |games|
  {
    if j == 0 then t else TeamStep(TeamAfter(t, games, j - 1), games[j - 1])
  }

  /** The results of the first j games. */
  function Results(games: seq<Game>, j: nat): (rs: seq<Result>)
    requires j <= |games|
    ensures |rs| == j && forall i :: 0 <= i < j ==> rs[i] == ResultOf(games[i])
  {
    if j == 0 then [] else Results(games, j - 1) + [ResultOf(games[j - 1])]
  }

  // ----- the plain counters -----------------------------------------------------------

  /** What a game can be counted for. */
  datatype Kind = Won | AtHome | WonAtHome | Extra | ExtraAtHome | ExtraWonAtHome | Shutout

  predicate Is(g: Game, kind: Kind) {
    match kind
    case Won => g.home == g.homeWin
    case AtHome => g.home
    case WonAtHome => g.home && g.homeWin
    case Extra => g.xtraInns
    case ExtraAtHome => g.xtraInns && g.home
    case ExtraWonAtHome => g.xtraInns && g.home && g.homeWin
    case Shutout => g.shutout
  }

  function CountOf(games: seq<Game>, kind: Kind, j: nat): nat
    requires j <= |games|
  {
    if j == 0 then 0 else CountOf(games, kind, j - 1) + if Is(games[j - 1], kind) then 1 else 0
  }

  /** After any games each plain counter is the number of games it is kept for, and what a
      game does not touch has not changed. */
  lemma {:induction false} PlainCounters(t: Team, games: seq<Game>, j: nat)
    requires Fresh(t) && j <= |games|
    ensures var u := TeamAfter(t, games, j);
      && u.gamesSampled == j && u.wins == CountOf(games, Won, j) && u.shutouts == CountOf(games, Shutout, j)
      && u.stats.smplSz[HOME_WIN_DX] == CountOf(games, AtHome, j) && u.stats.cnfrmd[HOME_WIN_DX] == CountOf(games, WonAtHome, j)
      && u.xtraInnGms == CountOf(games, Extra, j) && u.hmXtraInnGms == CountOf(games, ExtraAtHome, j)
      && u.hmXtraInnWins == CountOf(games, ExtraWonAtHome, j)
      && u.payroll == t.payroll && u.stolenBases == t.stolenBases
  {
    if j > 0 {
      hide HistoryValue, Fresh;
      PlainCounters(t, games, j - 1);
    }
  }

  // ----- the sliding history ----------------------------------------------------------

  /** Entry k of twelve zeros followed by the results. */
  function Padded(rs: seq<Result>, k: nat): int
    requires k < RECENT_HISTORY_LEN + |rs|
  {
    if k < RECENT_HISTORY_LEN then 0 else rs[k - RECENT_HISTORY_LEN]
  }

  /** After j games the history is the last 12 entries of twelve zeros followed by the
      results; so its oldest entry is nonzero exactly from game 12 on. */
  lemma {:induction false} HistoryIsLastTwelve(t: Team, games: seq<Game>, j: nat)
    requires Fresh(t) && j <= |games|
    ensures var h := TeamAfter(t, games, j).gameHist;
      && (forall i :: 0 <= i < RECENT_HISTORY_LEN ==> h[i] == Padded(Results(games, j), j + i))
      && (h[0] != 0 <==> j >= RECENT_HISTORY_LEN)
  {
    if j > 0 {
      HistoryIsLastTwelve(t, games, j - 1);
      hide Sample, HistoryValue;
    }
  }

  // ----- momentum and runs of equal results -----------------------------------------------

  /** Where the maximal run of equal results that starts at i ends. */
  function RunEnd(rs: seq<Result>, i: nat, j: nat): (e: nat)
    requires i < j <= |rs|
    ensures j <= e <= |rs|
    ensures e < |rs| ==> rs[e] != rs[i]
    ensures forall k :: j <= k < e ==> rs[k] == rs[i]
    decreases |rs| - j
  {
    if j < |rs| && rs[j] == rs[i] then RunEnd(rs, i, j + 1) else j
  }

  function Max(a: int, b: int): int {
    if a > b then a else b
  }

  /** The sum of max(0, length - 3) over the maximal runs from i on. */
  function ExcessFrom(rs: seq<Result>, i: nat): nat
    requires i <= |rs|
    decreases |rs| - i
  {
    if i == |rs| then 0
    else Max(0, RunEnd(rs, i, i + 1) - i - MOMENTUM_THRESHOLD) + ExcessFrom(rs, RunEnd(rs, i, i + 1))
  }

  /** The number of completed runs from i on, of result r and length 4 or more. */
  function LongRunsFrom(rs: seq<Result>, i: nat, r: Result): nat
    requires i <= |rs|
    decreases |rs| - i
  {
    if i == |rs| then 0
    else
      var e := RunEnd(rs, i, i + 1);
      (if e < |rs| && e - i > MOMENTUM_THRESHOLD && rs[i] == r then 1 else 0) + LongRunsFrom(rs, e, r)
  }

  /** The length of the last maximal run from i on. */
  function LastRunFrom(rs: seq<Result>, i: nat): nat
    requires i < |rs|
    decreases |rs| - i
  {
    if RunEnd(rs, i, i + 1) == |rs| then |rs| - i else LastRunFrom(rs, RunEnd(rs, i, i + 1))
  }

  /** One more game prolongs the last run or completes it and starts another. */
  lemma {:induction false} RunEndAppend(rs: seq<Result>, g: Result, i: nat, j: nat)
    requires i < j <= |rs|
    ensures var e := RunEnd(rs, i, j);
      RunEnd(rs + [g], i, j) == if e == |rs| && g == rs[i] then |rs| + 1 else e
    decreases |rs| - j
  {
    if j < |rs| {
      if rs[j] == rs[i] {
        RunEndAppend(rs, g, i, j + 1);
      }
    }
  }

  lemma {:induction false} LastRunAppend(rs: seq<Result>, g: Result, i: nat)
    requires i < |rs|
    ensures 1 <= LastRunFrom(rs, i) <= |rs| - i
    ensures LastRunFrom(rs + [g], i) == if g == rs[|rs| - 1] then LastRunFrom(rs, i) + 1 else 1
    decreases |rs| - i
  {
    var e := RunEnd(rs, i, i + 1);
    RunEndAppend(rs, g, i, i + 1);
    if e < |rs| {
      LastRunAppend(rs, g, e);
    } else {
      assert rs[|rs| - 1] == rs[i];
    }
  }

  lemma {:induction false} ExcessAppend(rs: seq<Result>, g: Result, i: nat)
    requires i < |rs|
    ensures ExcessFrom(rs + [g], i)
         == ExcessFrom(rs, i) + if g == rs[|rs| - 1] && LastRunFrom(rs, i) >= MOMENTUM_THRESHOLD then 1 else 0
    decreases |rs| - i
  {
    var e := RunEnd(rs, i, i + 1);
    RunEndAppend(rs, g, i, i + 1);
    if e < |rs| {
      ExcessAppend(rs, g, e);
    } else {
      assert rs[|rs| - 1] == rs[i];
      assert ExcessFrom(rs + [g], |rs| + 1) == 0;
    }
  }

  lemma {:induction false} LongRunsAppend(rs: seq<Result>, g: Result, i: nat, r: Result)
    requires i < |rs|
    ensures LongRunsFrom(rs + [g], i, r)
         == LongRunsFrom(rs, i, r)
          + if g != rs[|rs| - 1] && LastRunFrom(rs, i) > MOMENTUM_THRESHOLD && rs[|rs| - 1] == r then 1 else 0
    decreases |rs| - i
  {
    var e := RunEnd(rs, i, i + 1);
    RunEndAppend(rs, g, i, i + 1);
    if e < |rs| {
      LongRunsAppend(rs, g, e, r);
    } else {
      assert rs[|rs| - 1] == rs[i];
      assert LongRunsFrom(rs + [g], |rs| + 1, r) == 0;
    }
  }

  ghost predicate MomentumMatches(t: Team, rs: seq<Result>) {
    && t.gameHist[RECENT_HISTORY_LEN - 1] == (if rs == [] then 0 else rs[|rs| - 1])
    && t.currMomentum == (if rs == [] then 0 else LastRunFrom(rs, 0) - 1)
    && t.stats.cnfrmd[TEAM_MOMENTUM_DX] == ExcessFrom(rs, 0)
    && t.winStrks == LongRunsFrom(rs, 0, WIN)
    && t.lossStrks == LongRunsFrom(rs, 0, LOSS)
    && t.stats.smplSz[TEAM_MOMENTUM_DX] == t.stats.cnfrmd[TEAM_MOMENTUM_DX] + t.winStrks + t.lossStrks
  }

  lemma CountKeepsMomentum(t: Team, rs: seq<Result>, g: Game)
    requires MomentumMatches(t, rs)
    ensures MomentumMatches(CountGame(t, g), rs)
  {
    hide LastRunFrom, ExcessFrom, LongRunsFrom;
  }

  /** The momentum counters after the game, with the history still one game behind. */
  lemma TrackMomentumMatches(t: Team, rs: seq<Result>, g: Result)
    requires MomentumMatches(t, rs)
    ensures var t' := TrackMomentum(t, g);
      && t'.currMomentum == LastRunFrom(rs + [g], 0) - 1
      && t'.stats.cnfrmd[TEAM_MOMENTUM_DX] == ExcessFrom(rs + [g], 0)
      && t'.winStrks == LongRunsFrom(rs + [g], 0, WIN)
      && t'.lossStrks == LongRunsFrom(rs + [g], 0, LOSS)
      && t'.stats.smplSz[TEAM_MOMENTUM_DX] == t'.stats.cnfrmd[TEAM_MOMENTUM_DX] + t'.winStrks + t'.lossStrks
  {
    if rs == [] {
      assert RunEnd([g], 0, 1) == 1 && ExcessFrom([g], 1) == 0;
    } else {
      LastRunAppend(rs, g, 0);
      ExcessAppend(rs, g, 0);
      LongRunsAppend(rs, g, 0, WIN);
      LongRunsAppend(rs, g, 0, LOSS);
    }
    hide LastRunFrom, ExcessFrom, LongRunsFrom;
  }

  lemma MomentumStep(t: Team, rs: seq<Result>, g: Game)
    requires MomentumMatches(t, rs)
    ensures MomentumMatches(TeamStep(t, g), rs + [ResultOf(g)])
  {
    hide LastRunFrom, ExcessFrom, LongRunsFrom, HistoryValue, CountGame, TrackMomentum;
    CountKeepsMomentum(t, rs, g);
    TrackMomentumMatches(CountGame(t, g), rs, ResultOf(g));
  }

  /** After any games the momentum counters are those of the list of results: the
      current momentum is the last maximal run's length less one, Cnfrmd the sum of
      max(0, length - 3) over all maximal runs, the streak counters the completed runs of
      length 4 or more, and SmplSz the sum of the three. */
  lemma {:induction false} MomentumOfResults(t: Team, games: seq<Game>, j: nat)
    requires Fresh(t) && j <= |games|
    ensures MomentumMatches(TeamAfter(t, games, j), Results(games, j))
  {
    if j > 0 {
      hide MomentumMatches, TeamStep, Fresh;
      MomentumOfResults(t, games, j - 1);
      MomentumStep(TeamAfter(t, games, j - 1), Results(games, j - 1), games[j - 1]);
    }
  }

  // ----- history windows ---------------------------------------------------------------------

  function WinsIn(rs: seq<Result>, a: nat, b: nat): nat
    requires a <= b <= |rs|
  {
    if a == b then 0 else WinsIn(rs, a, b - 1) + if rs[b - 1] == WIN then 1 else 0
  }

  /** What the 12 games before game i predict for it: 1 if more than 7 were won, -1 if
      fewer than 5, else nothing; nothing before game 12. */
  function Trend(rs: seq<Result>, i: nat): int
    requires i <= |rs|
  {
    if i < RECENT_HISTORY_LEN then 0
    else
      var wins := WinsIn(rs, i - RECENT_HISTORY_LEN, i);
      if wins > 7 then 1 else if wins < 5 then -1 else 0
  }

  /** How many of the first j games had a prediction, and how many followed it. */
  function Predicted(rs: seq<Result>, j: nat): nat
    requires j <= |rs|
  {
    if j == 0 then 0 else Predicted(rs, j - 1) + if Trend(rs, j - 1) != 0 then 1 else 0
  }

  function Followed(rs: seq<Result>, j: nat): nat
    requires j <= |rs|
  {
    if j == 0 then 0 else Followed(rs, j - 1) + if Trend(rs, j - 1) == rs[j - 1] then 1 else 0
  }

  lemma {:induction false} CountIsWins(h: History, rs: seq<Result>, a: nat, k: nat)
    requires k <= RECENT_HISTORY_LEN && a + RECENT_HISTORY_LEN <= |rs|
    requires forall i :: 0 <= i < RECENT_HISTORY_LEN ==> h[i] == rs[a + i]
    ensures Count(h, WIN, k) == WinsIn(rs, a, a + k)
  {
    if k > 0 {
      CountIsWins(h, rs, a, k - 1);
    }
  }

  lemma HistoryIsWindow(t: Team, games: seq<Game>, j: nat, rs: seq<Result>)
    requires Fresh(t) && RECENT_HISTORY_LEN <= j <= |games| && rs == Results(games, |games|)
    ensures var h := TeamAfter(t, games, j).gameHist;
      forall i :: 0 <= i < RECENT_HISTORY_LEN ==> h[i] == rs[j - RECENT_HISTORY_LEN + i]
  {
    hide TeamAfter, Results, Fresh;
    HistoryIsLastTwelve(t, games, j);
    var h := TeamAfter(t, games, j).gameHist;
    forall i | 0 <= i < RECENT_HISTORY_LEN
      ensures h[i] == rs[j - RECENT_HISTORY_LEN + i]
    {
      var k := j - RECENT_HISTORY_LEN + i;
      assert h[i] == Padded(Results(games, j), j + i) == Results(games, j)[k] == ResultOf(games[k]);
    }
  }

  lemma HistoryValueIsTrend(t: Team, games: seq<Game>, j: nat, rs: seq<Result>)
    requires Fresh(t) && j <= |games| && rs == Results(games, |games|)
    ensures HistoryValue(TeamAfter(t, games, j).gameHist) == Trend(rs, j)
  {
    hide TeamAfter, Results, Fresh;
    HistoryIsLastTwelve(t, games, j);
    if j >= RECENT_HISTORY_LEN {
      HistoryIsWindow(t, games, j, rs);
      CountIsWins(TeamAfter(t, games, j).gameHist, rs, j - RECENT_HISTORY_LEN, RECENT_HISTORY_LEN);
    }
  }

  lemma StepHistoryStats(t: Team, g: Game)
    ensures var v, t' := HistoryValue(t.gameHist), TeamStep(t, g);
      && t'.stats.smplSz[TEAM_HISTORY_DX] == t.stats.smplSz[TEAM_HISTORY_DX] + (if v != 0 then 1 else 0)
      && t'.stats.cnfrmd[TEAM_HISTORY_DX] == t.stats.cnfrmd[TEAM_HISTORY_DX] + (if v == ResultOf(g) then 1 else 0)
  {
    hide HistoryValue;
  }

  /** After any games the history counters are the number of games whose preceding
      window of 12 predicted something, and of those that came out as predicted. */
  lemma {:induction false} HistoryOfResults(t: Team, games: seq<Game>, j: nat, rs: seq<Result>)
    requires Fresh(t) && j <= |games| && rs == Results(games, |games|)
    ensures var stats := TeamAfter(t, games, j).stats;
      stats.smplSz[TEAM_HISTORY_DX] == Predicted(rs, j) && stats.cnfrmd[TEAM_HISTORY_DX] == Followed(rs, j)
  {
    if j > 0 {
      hide HistoryValue, Trend, TeamStep, Results, Fresh;
      HistoryOfResults(t, games, j - 1, rs);
      HistoryValueIsTrend(t, games, j - 1, rs);
      StepHistoryStats(TeamAfter(t, games, j - 1), games[j - 1]);
      assert rs[j - 1] == ResultOf(games[j - 1]);
    }
  }

  // ----- swapping wins and losses ------------------------------------------------------------------

  function Negated(h: History): History {
    seq(RECENT_HISTORY_LEN, i requires 0 <= i < RECENT_HISTORY_LEN => -h[i])
  }

  /** Entries are losses, wins or still empty, and none is empty once the oldest is not. */
  ghost predicate Shape(h: History) {
    && (forall i :: 0 <= i < RECENT_HISTORY_LEN ==> h[i] == WIN || h[i] == LOSS || h[i] == 0)
    && (h[0] != 0 ==> forall i :: 0 <= i < RECENT_HISTORY_LEN ==> h[i] != 0)
  }

  lemma HistoryHasShape(t: Team, games: seq<Game>, j: nat)
    requires Fresh(t) && j <= |games|
    ensures Shape(TeamAfter(t, games, j).gameHist)
  {
    HistoryIsLastTwelve(t, games, j);
    hide TeamAfter;
  }

  lemma {:induction false} CountNegated(h: History, j: nat)
    requires j <= RECENT_HISTORY_LEN && forall i :: 0 <= i < RECENT_HISTORY_LEN ==> h[i] == WIN || h[i] == LOSS
    ensures Count(Negated(h), WIN, j) == j - Count(h, WIN, j)
  {
    if j > 0 {
      CountNegated(h, j - 1);
    }
  }

  /** Swapping wins and losses turns the prediction around. */
  lemma SwapNegatesValue(h: History)
    requires Shape(h)
    ensures HistoryValue(Negated(h)) == -HistoryValue(h)
  {
    if h[0] != 0 {
      CountNegated(h, RECENT_HISTORY_LEN);
    }
  }

  /** A team whose results are the other's with wins and losses swapped. */
  ghost predicate Mirrored(t: Team, u: Team) {
    && u.gameHist == Negated(t.gameHist)
    && u.gamesSampled == t.gamesSampled && u.wins == t.gamesSampled - t.wins
    && u.currMomentum == t.currMomentum && u.winStrks == t.lossStrks && u.lossStrks == t.winStrks
    && u.stats.smplSz[TEAM_MOMENTUM_DX] == t.stats.smplSz[TEAM_MOMENTUM_DX]
    && u.stats.cnfrmd[TEAM_MOMENTUM_DX] == t.stats.cnfrmd[TEAM_MOMENTUM_DX]
    && u.stats.smplSz[TEAM_HISTORY_DX] == t.stats.smplSz[TEAM_HISTORY_DX]
    && u.stats.cnfrmd[TEAM_HISTORY_DX] == t.stats.cnfrmd[TEAM_HISTORY_DX]
  }

  lemma MirroredStep(t: Team, u: Team, g: Game, m: Game)
    requires Mirrored(t, u) && Shape(t.gameHist) && ResultOf(m) != ResultOf(g)
    ensures Mirrored(TeamStep(t, g), TeamStep(u, m))
  {
    SwapNegatesValue(t.gameHist);
    StepHistoryStats(t, g);
    StepHistoryStats(u, m);
    hide HistoryValue;
  }

  /** So predictors built on history and momentum do not know a winner from a loser:
      against the mirror season they make as many predictions and get as many right. */
  lemma {:induction false} MirrorSeason(t: Team, games: seq<Game>, mirror: seq<Game>, j: nat)
    requires Fresh(t) && j <= |games| == |mirror|
    requires forall i :: 0 <= i < |games| ==> ResultOf(mirror[i]) != ResultOf(games[i])
    ensures Mirrored(TeamAfter(t, games, j), TeamAfter(t, mirror, j))
  {
    if j > 0 {
      MirrorSeason(t, games, mirror, j - 1);
      HistoryHasShape(t, games, j - 1);
      hide TeamStep, Mirrored, Shape;
      MirroredStep(TeamAfter(t, games, j - 1), TeamAfter(t, mirror, j - 1), games[j - 1], mirror[j - 1]);
    }
  }

  // ----- the team record in place ------------------------------------------------------------------

  class TeamData {
    var payroll: nat
    var gamesSampled: nat
    var wins: nat
    var xtraInnGms: nat
    var hmXtraInnGms: nat
    var hmXtraInnWins: nat
    var shutouts: nat
    var stolenBases: nat
    var gameHist: History
    var smplSz: Column
    var cnfrmd: Column
    var currMomentum: nat
    var winStrks: nat
    var lossStrks: nat

    ghost function State(): Team
      reads this
    {
      Team(payroll, gamesSampled, wins, xtraInnGms, hmXtraInnGms, hmXtraInnWins, shutouts, stolenBases, gameHist,
           Stats(smplSz, cnfrmd), currMomentum, winStrks, lossStrks)
    }

    constructor (payroll: nat)
      ensures Fresh(State()) && this.payroll == payroll && stolenBases == 0
    {
      this.payroll := payroll;
      gamesSampled, wins, xtraInnGms, hmXtraInnGms, hmXtraInnWins, shutouts, stolenBases := 0, 0, 0, 0, 0, 0, 0;
      gameHist := seq(RECENT_HISTORY_LEN, _ => 0);
      smplSz, cnfrmd := [0, 0, 0, 0, 0], [0, 0, 0, 0, 0];
      currMomentum, winStrks, lossStrks := 0, 0, 0;
    }

    /** GetHistoryValue, counting as it goes. */
    method HistoryTrend() returns (v: int)
      ensures v == HistoryValue(gameHist)
    {
      if gameHist[0] == 0 {
        return 0;
      }
      var wins, i := 0, 0;
      while i < RECENT_HISTORY_LEN
        invariant 0 <= i <= RECENT_HISTORY_LEN && wins == Count(gameHist, WIN, i)
      {
        if gameHist[i] == WIN {
          wins := wins + 1;
        }
        i := i + 1;
      }
      if wins > HISTORY_HALF_LEN + 1 {
        return 1;
      }
      if wins < HISTORY_HALF_LEN - 1 {
        return -1;
      }
      return 0;
    }

    method AddSample(k: nat)
      requires k < NUM_PREDICTORS
      modifies `smplSz
      ensures smplSz == Bump(old(smplSz), k)
    {
      smplSz := smplSz[k := smplSz[k] + 1];
    }

    method Confirm(k: nat)
      requires k < NUM_PREDICTORS
      modifies `cnfrmd
      ensures cnfrmd == Bump(old(cnfrmd), k)
    {
      cnfrmd := cnfrmd[k := cnfrmd[k] + 1];
    }

    method CountPlain(g: Game, thisGame: Result)
      requires thisGame == ResultOf(g)
      modifies this
      ensures State() == CountGame(old(State()), g)
    {
      hide Bump;
      gamesSampled := gamesSampled + 1;
      if g.home {
        AddSample(HOME_WIN_DX);
      }
      if g.shutout {
        shutouts := shutouts + 1;
      }
      if g.xtraInns {
        xtraInnGms := xtraInnGms + 1;
        if g.home {
          hmXtraInnGms := hmXtraInnGms + 1;
        }
      }
      if thisGame == WIN {
        wins := wins + 1;
        if g.home {
          Confirm(HOME_WIN_DX);
          if g.xtraInns {
            hmXtraInnWins := hmXtraInnWins + 1;
          }
        }
      }
    }

    method UpdateMomentum(thisGame: Result)
      modifies this
      ensures State() == TrackMomentum(old(State()), thisGame)
    {
      hide Bump;
      var prevGame := gameHist[RECENT_HISTORY_LEN - 1];
      if prevGame == 0 {
        prevGame := 0 - thisGame;
      }
      if thisGame == prevGame {
        currMomentum := currMomentum + 1;
      }
      var momentumActv := currMomentum >= MOMENTUM_THRESHOLD;
      if momentumActv {
        AddSample(TEAM_MOMENTUM_DX);
        if thisGame == prevGame {
          Confirm(TEAM_MOMENTUM_DX);
        }
      }
      if thisGame != prevGame {
        currMomentum := 0;
        if momentumActv {
          if prevGame == WIN {
            winStrks := winStrks + 1;
          }
          if prevGame == LOSS {
            lossStrks := lossStrks + 1;
          }
        }
      }
    }

    method UpdateHistory(thisGame: Result)
      modifies this
      ensures State() == TrackHistory(old(State()), thisGame)
    {
      hide Bump, HistoryValue;
      var histVal := HistoryTrend();
      if histVal != 0 {
        AddSample(TEAM_HISTORY_DX);
      }
      if thisGame == histVal {
        Confirm(TEAM_HISTORY_DX);
      }
      gameHist := gameHist[1..] + [thisGame];
    }

    method ProcessGame(g: Game)
      modifies this
      ensures State() == TeamStep(old(State()), g)
    {
      hide CountGame, TrackMomentum, TrackHistory;
      var thisGame := if g.home == g.homeWin then WIN else LOSS;
      CountPlain(g, thisGame);
      UpdateMomentum(thisGame);
      UpdateHistory(thisGame);
    }
  }
}
