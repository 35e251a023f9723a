/** The five predictors over a season: what each predicts for a game from the two
    teams' records before it, how often they agree, and how independent that makes
    them. */
module Predictors {
  import opened TeamHistory
  import opened Season
  import opened CombinedPredictor

  /** What the predictors say of one game: 1 in `smpl` for a prediction, and in `cnf`
      whether it came true. */
  datatype OneGame = OneGame(smpl: Column, cnf: Column)

  function Bit(b: bool): nat {
    if b then 1 else 0
  }

  // ----- one game's predictions -----------------------------------------------------

  function Sign(n: int): int {
    if n < 0 then -1 else if n == 0 then 0 else 1
  }

  function RecordComesTrue(home: Team, vstr: Team, homeWin: bool): bool {
    if WinRatio(home) - WinRatio(vstr) > 0.0 then homeWin else !homeWin
  }

  function HistoryNet(home: Team, vstr: Team): int {
    Sign(HistoryValue(home.gameHist) - HistoryValue(vstr.gameHist))
  }

  function HistoryComesTrue(homeTrend: int, vstrTrend: int, homeWin: bool): bool {
    if homeTrend == 1 then homeWin
    else if homeTrend == -1 then !homeWin
    else if vstrTrend == 1 then !homeWin
    else vstrTrend == -1 && homeWin
  }

  /** The last result of a team on a streak. */
  function MomentumTrend(t: Team): int {
    if t.currMomentum >= MOMENTUM_THRESHOLD then t.gameHist[RECENT_HISTORY_LEN - 1] else 0
  }

  function MomentumNet(home: Team, vstr: Team): int {
    Sign(MomentumTrend(home) - MomentumTrend(vstr))
  }

  /** Each of the two teams' streaks counts for itself, so that the cell is 2 when both
      streaks point at the winner. */
  function MomentumHits(homeTrend: int, vstrTrend: int, homeWin: bool): nat {
    (if homeTrend == 1 then Bit(homeWin) else if homeTrend == -1 then Bit(!homeWin) else 0)
    + (if vstrTrend == 1 then Bit(!homeWin) else if vstrTrend == -1 then Bit(homeWin) else 0)
  }

  /** The predictions of ExtractPredictorData and how they came out. */
  function Predict(home: Team, vstr: Team, homeWin: bool): OneGame {
    var pay := PayrollsDiffer(home.payroll, vstr.payroll);
    var rec := RecordsDiffer(home, vstr);
    var hist := HistoryNet(home, vstr) != 0;
    var mom := MomentumNet(home, vstr) != 0;
    OneGame(
      [1, Bit(pay), Bit(rec), Bit(hist), Bit(mom)],
      [Bit(homeWin),
       Bit(pay && PayrollConfirms(home.payroll, vstr.payroll, homeWin)),
       Bit(rec && RecordComesTrue(home, vstr, homeWin)),
       Bit(hist && HistoryComesTrue(HistoryValue(home.gameHist), HistoryValue(vstr.gameHist), homeWin)),
       if mom then MomentumHits(MomentumTrend(home), MomentumTrend(vstr), homeWin) else 0])
  }

  // ----- no look-ahead ------------------------------------------------------------------

  /** A team as ProcessGameDataOneTeam leaves it: results are wins, losses or empty. */
  ghost predicate Plausible(t: Team) {
    forall i :: 0 <= i < RECENT_HISTORY_LEN ==> t.gameHist[i] == WIN || t.gameHist[i] == LOSS || t.gameHist[i] == 0
  }

  /** Both teams are on a streak, one winning and one losing. */
  predicate OppositeMomentum(home: Team, vstr: Team) {
    MomentumTrend(home) != 0 && MomentumTrend(vstr) == -MomentumTrend(home)
  }

  /** Payrolls count as different although they are equal: only when both are zero. */
  predicate EmptyPayrolls(home: Team, vstr: Team) {
    PayrollsDiffer(home.payroll, vstr.payroll) && home.payroll == vstr.payroll
  }

  lemma EmptyPayrollsIff(home: Team, vstr: Team)
    ensures EmptyPayrolls(home, vstr) <==> home.payroll == 0 && vstr.payroll == 0
  {
  }

  /** How often predictor k is confirmed by one or the other outcome. */
  function Hits(home: Team, vstr: Team, k: nat): nat {
    if k == RLTV_PAYROLL_DX && EmptyPayrolls(home, vstr) then 0
    else if k == TEAM_MOMENTUM_DX && OppositeMomentum(home, vstr) then 2
    else 1
  }

  /** Who wins does not matter for which predictors are active; each active one is
      confirmed by exactly one of the two outcomes, except that two zero payrolls confirm
      nothing, and opposite momentum counts 2 for one outcome and 0 for the other. */
  lemma ExactlyOneOutcomeConfirms(home: Team, vstr: Team, k: nat)
    requires Plausible(home) && Plausible(vstr) && k < NUM_PREDICTORS
    ensures var won, lost := Predict(home, vstr, true), Predict(home, vstr, false);
      && won.smpl == lost.smpl
      && (won.smpl[k] == 0 ==> won.cnf[k] == lost.cnf[k] == 0)
      && (won.smpl[k] == 1 ==> won.cnf[k] == 0 || lost.cnf[k] == 0)
      && (won.smpl[k] == 1 ==> won.cnf[k] + lost.cnf[k] == Hits(home, vstr, k))
  {
    hide PayrollsDiffer, RecordsDiffer, HistoryValue, WinRatio;
    HistoryRange(home);
    HistoryRange(vstr);
  }

  lemma HistoryRange(t: Team)
    ensures HistoryValue(t.gameHist) in {-1, 0, 1}
  {
  }

  predicate BothActive(g: OneGame, r: nat, c: nat)
    requires r < NUM_PREDICTORS && c < NUM_PREDICTORS
  {
    g.smpl[r] == 1 && g.smpl[c] == 1
  }

  /** The game counts as an agreement of predictors r and c. */
  predicate Agree(g: OneGame, r: nat, c: nat)
    requires r < NUM_PREDICTORS && c < NUM_PREDICTORS
  {
    BothActive(g, r, c) && g.cnf[r] == g.cnf[c]
  }

  /** Which team predictor k favours before the game: 1 home, -1 visitor, 0 neither. */
  function Side(home: Team, vstr: Team, k: nat): int {
    if k == HOME_WIN_DX then 1
    else if k == RLTV_PAYROLL_DX then
      if PayrollsDiffer(home.payroll, vstr.payroll) then Sign(home.payroll - vstr.payroll) else 0
    else if k == RLTV_RECORD_DX then
      if !RecordsDiffer(home, vstr) then 0 else if WinRatio(home) > WinRatio(vstr) then 1 else -1
    else if k == TEAM_HISTORY_DX then HistoryNet(home, vstr)
    else MomentumNet(home, vstr)
  }

  /** Some other predictor favours the team that momentum favours. */
  ghost predicate MomentumHasCompany(home: Team, vstr: Team) {
    exists k :: 0 <= k < TEAM_MOMENTUM_DX && Side(home, vstr, k) == MomentumNet(home, vstr)
  }

  /** A predictor is active exactly if it favours a team, two empty payrolls apart, and
      then it is confirmed exactly if that team wins. */
  lemma SideDecides(home: Team, vstr: Team, k: nat)
    requires Plausible(home) && Plausible(vstr) && k < NUM_PREDICTORS && !EmptyPayrolls(home, vstr)
    ensures var won, lost := Predict(home, vstr, true), Predict(home, vstr, false);
      && (won.smpl[k] == 1 <==> Side(home, vstr, k) != 0) && (lost.smpl[k] == 1 <==> Side(home, vstr, k) != 0)
      && (won.cnf[k] != 0 <==> Side(home, vstr, k) == 1) && (lost.cnf[k] != 0 <==> Side(home, vstr, k) == -1)
      && Side(home, vstr, k) in {-1, 0, 1}
  {
    hide PayrollsDiffer, RecordsDiffer, HistoryValue, WinRatio;
    HistoryRange(home);
    HistoryRange(vstr);
  }

  /** Payrolls and opposite momentum apart, two predictors agree in a game exactly if both
      favour the same team, whoever wins it. */
  lemma AgreeIffSameSide(home: Team, vstr: Team, homeWin: bool, r: nat, c: nat)
    requires Plausible(home) && Plausible(vstr) && !EmptyPayrolls(home, vstr) && !OppositeMomentum(home, vstr)
    requires r < NUM_PREDICTORS && c < NUM_PREDICTORS
    ensures Agree(Predict(home, vstr, homeWin), r, c) <==> Side(home, vstr, r) == Side(home, vstr, c) != 0
  {
    SideDecides(home, vstr, r);
    SideDecides(home, vstr, c);
    ExactlyOneOutcomeConfirms(home, vstr, r);
    ExactlyOneOutcomeConfirms(home, vstr, c);
    hide Predict, EmptyPayrolls, OppositeMomentum, Side;
  }

  ghost predicate SameAgreements(g: OneGame, h: OneGame) {
    forall r, c :: 0 <= r < NUM_PREDICTORS && 0 <= c < NUM_PREDICTORS ==> (Agree(g, r, c) <==> Agree(h, r, c))
  }

  /** No look-ahead: the agreement update does not depend on who won, except in two cases
      known before the game: both payrolls are zero, or the teams carry opposite momentum
      and another predictor favours the same team. */
  lemma AgreementsIgnoreWinnerIff(home: Team, vstr: Team)
    requires Plausible(home) && Plausible(vstr)
    ensures SameAgreements(Predict(home, vstr, true), Predict(home, vstr, false))
       <==> !EmptyPayrolls(home, vstr) && !(OppositeMomentum(home, vstr) && MomentumHasCompany(home, vstr))
  {
    var won, lost := Predict(home, vstr, true), Predict(home, vstr, false);
    forall k | 0 <= k < NUM_PREDICTORS
      ensures won.smpl[k] == lost.smpl[k] <= 1
      ensures won.smpl[k] == 1 ==> (won.cnf[k] == 0 || lost.cnf[k] == 0) && won.cnf[k] + lost.cnf[k] == Hits(home, vstr, k)
    {
      ExactlyOneOutcomeConfirms(home, vstr, k);
      SamplesAreBits(home, vstr, true, k);
    }
    assert won.smpl[HOME_WIN_DX] == 1;
    SidesWithMomentum(home, vstr);
    var empty, opposite := EmptyPayrolls(home, vstr), OppositeMomentum(home, vstr);
    if !empty {
      forall k | 0 <= k < TEAM_MOMENTUM_DX
        ensures opposite ==>
          (Side(home, vstr, k) == MomentumNet(home, vstr)
           <==> won.smpl[k] == 1 && (won.cnf[k] != 0 <==> won.cnf[TEAM_MOMENTUM_DX] != 0))
      {
        hide Predict, OppositeMomentum, EmptyPayrolls, MomentumNet;
        SideDecides(home, vstr, k);
        SideDecides(home, vstr, TEAM_MOMENTUM_DX);
      }
    }
    hide Predict, EmptyPayrolls, OppositeMomentum, Side, MomentumNet;
    if empty {
      assert !(Agree(won, HOME_WIN_DX, RLTV_PAYROLL_DX) <==> Agree(lost, HOME_WIN_DX, RLTV_PAYROLL_DX));
    } else if opposite && MomentumHasCompany(home, vstr) {
      var k :| 0 <= k < TEAM_MOMENTUM_DX && Side(home, vstr, k) == MomentumNet(home, vstr);
      assert !(Agree(won, k, TEAM_MOMENTUM_DX) <==> Agree(lost, k, TEAM_MOMENTUM_DX));
    } else {
      forall r, c | 0 <= r < NUM_PREDICTORS && 0 <= c < NUM_PREDICTORS
        ensures Agree(won, r, c) <==> Agree(lost, r, c)
      {
        if !opposite {
        } else {
          assert r < TEAM_MOMENTUM_DX ==> Side(home, vstr, r) != MomentumNet(home, vstr);
          assert c < TEAM_MOMENTUM_DX ==> Side(home, vstr, c) != MomentumNet(home, vstr);
        }
      }
    }
  }

  lemma SamplesAreBits(home: Team, vstr: Team, homeWin: bool, k: nat)
    requires k < NUM_PREDICTORS
    ensures Predict(home, vstr, homeWin).smpl[k] <= 1
  {
    hide PayrollsDiffer, RecordsDiffer, HistoryNet, MomentumNet;
  }

  lemma SidesWithMomentum(home: Team, vstr: Team)
    requires Plausible(home) && Plausible(vstr)
    ensures EmptyPayrolls(home, vstr) ==> Predict(home, vstr, true).smpl[RLTV_PAYROLL_DX] == 1
    ensures OppositeMomentum(home, vstr) ==> Predict(home, vstr, true).smpl[TEAM_MOMENTUM_DX] == 1
  {
    hide PayrollsDiffer, RecordsDiffer, HistoryNet;
  }

  // ----- the season's totals ---------------------------------------------------------------

  const PREDICTOR_DIVERGENCE_MATRIX: seq<seq<real>> := [
    [0.000, 0.495, 0.507, 0.511, 0.435],
    [0.495, 0.000, 0.276, 0.363, 0.437],
    [0.507, 0.276, 0.000, 0.058, 0.103],
    [0.511, 0.363, 0.058, 0.000, 0.045],
    [0.435, 0.437, 0.103, 0.045, 0.000]]

  lemma SourceInputs(smpl: Column)
    requires BitColumn(smpl)
    ensures Inputs(NET_PREDICTOR_RATES, smpl, PREDICTOR_DIVERGENCE_MATRIX) && UnitWeights(PREDICTOR_DIVERGENCE_MATRIX)
    ensures Distinct(NET_PREDICTOR_RATES) && CombinedPredictor.Sum(NET_PREDICTOR_RATES, 5) < 0.5
  {
    SourceRatesQualify();
  }

  function ColumnSum(c: Column): nat {
    c[0] + c[1] + c[2] + c[3] + c[4]
  }

  /** The running totals of PredictorData but for the agreement matrix. */
  datatype Totals = Totals(
    totalGames: nat, ratios: Stats, historyWeeded: nat, momentumWeeded: nat,
    combinedSize: nat, combinedCorrect: nat, rateSum: real, increaseSum: real)

  const NO_TOTALS := Totals(0, NO_STATS, 0, 0, 0, 0, 0.0, 0.0)

  ghost predicate BitColumn(c: Column) {
    forall k :: 0 <= k < NUM_PREDICTORS ==> c[k] <= 1
  }

  /** More than half of the predictors predict, so that they are combined. */
  function CombinedOf(g: OneGame): (v: (real, real))
    requires BitColumn(g.smpl)
    ensures v == (0.0, 0.0) || (0.5 < v.0 < 1.0 && v.1 > 0.0)
  {
    if 2 * ColumnSum(g.smpl) > NUM_PREDICTORS then
      SourceInputs(g.smpl);
      CombinedRate(NET_PREDICTOR_RATES, g.smpl, PREDICTOR_DIVERGENCE_MATRIX);
      BestIsARate(NET_PREDICTOR_RATES, g.smpl);
      Combined(NET_PREDICTOR_RATES, g.smpl, PREDICTOR_DIVERGENCE_MATRIX)
    else (0.0, 0.0)
  }

  /** The totals after one more game. */
  function AddGame(p: Totals, g: OneGame): Totals
    requires BitColumn(g.smpl)
  {
    var v := CombinedOf(g);
    var combines := v.0 > 0.0;
    Totals(
      p.totalGames + 1,
      Stats(AddColumns(p.ratios.smplSz, g.smpl), AddColumns(p.ratios.cnfrmd, g.cnf)),
      p.historyWeeded + (if g.smpl[TEAM_HISTORY_DX] == 0 then 1 else 0),
      p.momentumWeeded + (if g.smpl[TEAM_MOMENTUM_DX] == 0 then 1 else 0),
      p.combinedSize + (if combines then 1 else 0),
      p.combinedCorrect + (if combines && 2 * ColumnSum(g.cnf) > ColumnSum(g.smpl) then 1 else 0),
      if combines then p.rateSum + v.0 else p.rateSum,
      if combines then p.increaseSum + v.1 else p.increaseSum)
  }

  ghost predicate AllBits(games: seq<OneGame>) {
    forall i :: 0 <= i < |games| ==> BitColumn(games[i].smpl) && games[i].smpl[HOME_WIN_DX] == 1
  }

  function TotalsAfter(games: seq<OneGame>, j: nat): Totals
    requires j <= |games| && AllBits(games)
  {
    if j == 0 then NO_TOTALS else AddGame(TotalsAfter(games, j - 1), games[j - 1])
  }

  ghost predicate AddsUp(p: Totals, n: nat) {
    && p.totalGames == n == p.ratios.smplSz[HOME_WIN_DX]
    && p.ratios.smplSz[TEAM_HISTORY_DX] + p.historyWeeded == n
    && p.ratios.smplSz[TEAM_MOMENTUM_DX] + p.momentumWeeded == n
    && p.combinedCorrect <= p.combinedSize <= n
    && 0.5 * p.combinedSize as real <= p.rateSum <= p.combinedSize as real && p.increaseSum >= 0.0
  }

  lemma AddGameAddsUp(p: Totals, g: OneGame, n: nat)
    requires AddsUp(p, n) && BitColumn(g.smpl) && g.smpl[HOME_WIN_DX] == 1
    ensures AddsUp(AddGame(p, g), n + 1)
  {
    assert g.smpl[TEAM_HISTORY_DX] <= 1 && g.smpl[TEAM_MOMENTUM_DX] <= 1;
    hide CombinedOf, ColumnSum, AddColumns, BitColumn;
  }

  /** Over any games: every game samples the home predictor; history and momentum are
      each either sampled or weeded; the combined predictor is right at most as often as
      it is used and used at most once a game; and its average rate is a probability
      better than even odds. */
  lemma {:induction false} TotalsAddUp(games: seq<OneGame>, j: nat)
    requires j <= |games| && AllBits(games)
    ensures AddsUp(TotalsAfter(games, j), j)
  {
    if j > 0 {
      assert BitColumn(games[j - 1].smpl) && games[j - 1].smpl[HOME_WIN_DX] == 1;
      hide AddGame, AddsUp, BitColumn;
      TotalsAddUp(games, j - 1);
      AddGameAddsUp(TotalsAfter(games, j - 1), games[j - 1], j - 1);
    }
  }

  /** Samples and confirmations of predictor k over the first j games. */
  function Sampled(games: seq<OneGame>, k: nat, j: nat): nat
    requires j <= |games| && k < NUM_PREDICTORS
  {
    if j == 0 then 0 else Sampled(games, k, j - 1) + games[j - 1].smpl[k]
  }

  function Confirmed(games: seq<OneGame>, k: nat, j: nat): nat
    requires j <= |games| && k < NUM_PREDICTORS
  {
    if j == 0 then 0 else Confirmed(games, k, j - 1) + games[j - 1].cnf[k]
  }

  lemma AddGameRatios(p: Totals, g: OneGame, k: nat)
    requires BitColumn(g.smpl) && k < NUM_PREDICTORS
    ensures var ratios := AddGame(p, g).ratios;
      ratios.smplSz[k] == p.ratios.smplSz[k] + g.smpl[k] && ratios.cnfrmd[k] == p.ratios.cnfrmd[k] + g.cnf[k]
  {
    hide CombinedOf, ColumnSum;
  }

  lemma OneMoreTotal(games: seq<OneGame>, j: nat)
    requires 0 < j <= |games| && AllBits(games)
    ensures BitColumn(games[j - 1].smpl) && TotalsAfter(games, j) == AddGame(TotalsAfter(games, j - 1), games[j - 1])
  {
    hide AddGame;
  }

  lemma {:induction false} RatiosAreSums(games: seq<OneGame>, k: nat, j: nat)
    requires j <= |games| && AllBits(games) && k < NUM_PREDICTORS
    ensures var ratios := TotalsAfter(games, j).ratios;
      ratios.smplSz[k] == Sampled(games, k, j) && ratios.cnfrmd[k] == Confirmed(games, k, j)
  {
    if j > 0 {
      hide *;
      OneMoreTotal(games, j);
      OneMoreSum(games, k, j);
      RatiosAreSums(games, k, j - 1);
      AddGameRatios(TotalsAfter(games, j - 1), games[j - 1], k);
    } else {
      hide *;
      NothingSampled(games, k);
    }
  }

  lemma NothingSampled(games: seq<OneGame>, k: nat)
    requires AllBits(games) && k < NUM_PREDICTORS
    ensures var ratios := TotalsAfter(games, 0).ratios; ratios.smplSz[k] == ratios.cnfrmd[k] == 0
    ensures Sampled(games, k, 0) == Confirmed(games, k, 0) == 0
  {
    hide AllBits, AddGame;
    assert TotalsAfter(games, 0) == NO_TOTALS;
  }

  lemma OneMoreSum(games: seq<OneGame>, k: nat, j: nat)
    requires 0 < j <= |games| && k < NUM_PREDICTORS
    ensures Sampled(games, k, j) == Sampled(games, k, j - 1) + games[j - 1].smpl[k]
    ensures Confirmed(games, k, j) == Confirmed(games, k, j - 1) + games[j - 1].cnf[k]
  {
  }

  // The combined predictor's totals

  predicate ManyActive(g: OneGame) {
    ColumnSum(g.smpl) >= 3
  }

  /** More of the active predictors were confirmed than not. */
  predicate MajorityConfirmed(g: OneGame) {
    ColumnSum(g.cnf) > ColumnSum(g.smpl) - ColumnSum(g.cnf)
  }

  /** The best active predictor's rate. */
  function BestRate(g: OneGame): real
    requires BitColumn(g.smpl)
  {
    0.5 + MaxNet(NET_PREDICTOR_RATES, g.smpl, NUM_PREDICTORS)
  }

  lemma TwoOfThree(c: Column, b: nat)
    requires BitColumn(c) && ColumnSum(c) >= 3 && b < NUM_PREDICTORS
    ensures exists x :: 0 <= x < NUM_PREDICTORS && x != b && c[x] == 1
  {
    if forall x :: 0 <= x < NUM_PREDICTORS && x != b ==> c[x] != 1 {
      assert forall x :: 0 <= x < NUM_PREDICTORS && x != b ==> c[x] == 0;
      assert false;
    }
  }

  /** The game is combined exactly if at least three predictors are active, with a rate
      above the best one's by the increase it reports. */
  lemma CombinedUsedIff(g: OneGame)
    requires BitColumn(g.smpl)
    ensures CombinedOf(g).0 > 0.0 <==> ManyActive(g)
    ensures CombinedOf(g).0 > 0.0 ==> CombinedOf(g).0 == BestRate(g) + CombinedOf(g).1
  {
    if ManyActive(g) {
      var c := g.smpl;
      SourceInputs(c);
      CombinedRate(NET_PREDICTOR_RATES, c, PREDICTOR_DIVERGENCE_MATRIX);
      BestIsARate(NET_PREDICTOR_RATES, c);
      TwoOfThree(c, 0);
      var b := BestIndex(NET_PREDICTOR_RATES, c);
      TwoOfThree(c, b);
      var x :| 0 <= x < NUM_PREDICTORS && x != b && c[x] == 1;
      WeightPositive(x, b);
      assert Helped(c, PREDICTOR_DIVERGENCE_MATRIX, b, NUM_PREDICTORS);
    }
    hide Combined, MaxNet, Helped, Inputs, Distinct, UnitWeights, BitColumn;
  }

  lemma WeightPositive(x: nat, b: nat)
    requires x < NUM_PREDICTORS && b < NUM_PREDICTORS && x != b
    ensures PREDICTOR_DIVERGENCE_MATRIX[x][b] > 0.0
  {
  }

  function Combinable(games: seq<OneGame>, j: nat): nat
    requires j <= |games|
  {
    if j == 0 then 0 else Combinable(games, j - 1) + Bit(ManyActive(games[j - 1]))
  }

  function Majorities(games: seq<OneGame>, j: nat): nat
    requires j <= |games|
  {
    if j == 0 then 0 else Majorities(games, j - 1) + Bit(ManyActive(games[j - 1]) && MajorityConfirmed(games[j - 1]))
  }

  /** The best rates of the games that are combined. */
  function BestRates(games: seq<OneGame>, j: nat): real
    requires j <= |games| && AllBits(games)
  {
    if j == 0 then 0.0 else BestRates(games, j - 1) + if ManyActive(games[j - 1]) then BestRate(games[j - 1]) else 0.0
  }

  lemma AddGameCombined(p: Totals, g: OneGame)
    requires BitColumn(g.smpl)
    ensures var q := AddGame(p, g);
      && q.combinedSize == p.combinedSize + Bit(ManyActive(g))
      && q.combinedCorrect == p.combinedCorrect + Bit(ManyActive(g) && MajorityConfirmed(g))
      && q.rateSum - q.increaseSum == p.rateSum - p.increaseSum + if ManyActive(g) then BestRate(g) else 0.0
  {
    CombinedUsedIff(g);
    hide CombinedOf, BestRate, ColumnSum, AddColumns, BitColumn;
  }

  /** Over any games: the combined predictor is used in exactly the games with three active
      predictors or more, is right in exactly those of them in which a majority was, and
      the rates it reports exceed the best single rates by exactly the increases it
      reports. */
  lemma {:induction false} CombinedTotals(games: seq<OneGame>, j: nat)
    requires j <= |games| && AllBits(games)
    ensures var p := TotalsAfter(games, j);
      && p.combinedSize == Combinable(games, j) && p.combinedCorrect == Majorities(games, j)
      && p.rateSum == BestRates(games, j) + p.increaseSum
  {
    if j > 0 {
      assert BitColumn(games[j - 1].smpl);
      hide AddGame, BitColumn, AllBits, BestRate, ManyActive, MajorityConfirmed;
      CombinedTotals(games, j - 1);
      AddGameCombined(TotalsAfter(games, j - 1), games[j - 1]);
    }
  }

  // Who wins and the majority

  /** How many of the other predictors favour this side. */
  function Backers(home: Team, vstr: Team, side: int): nat {
    Bit(Side(home, vstr, 0) == side) + Bit(Side(home, vstr, 1) == side)
    + Bit(Side(home, vstr, 2) == side) + Bit(Side(home, vstr, 3) == side)
  }

  /** What the four other predictors and momentum contribute to the two outcomes. */
  lemma MajorityShares(home: Team, vstr: Team)
    requires Plausible(home) && Plausible(vstr) && !EmptyPayrolls(home, vstr)
    ensures var won, lost := Predict(home, vstr, true), Predict(home, vstr, false);
      && won.smpl == lost.smpl
      && ColumnSum(won.cnf) == Backers(home, vstr, 1) + won.cnf[TEAM_MOMENTUM_DX]
      && ColumnSum(lost.cnf) == Backers(home, vstr, -1) + lost.cnf[TEAM_MOMENTUM_DX]
      && ColumnSum(won.smpl) == Backers(home, vstr, 1) + Backers(home, vstr, -1) + Bit(MomentumNet(home, vstr) != 0)
      && won.cnf[TEAM_MOMENTUM_DX] == (if MomentumNet(home, vstr) != 1 then 0 else if OppositeMomentum(home, vstr) then 2 else 1)
      && lost.cnf[TEAM_MOMENTUM_DX] == (if MomentumNet(home, vstr) != -1 then 0 else if OppositeMomentum(home, vstr) then 2 else 1)
      && MomentumNet(home, vstr) in {-1, 0, 1}
  {
    var won, lost := Predict(home, vstr, true), Predict(home, vstr, false);
    forall k | 0 <= k < NUM_PREDICTORS
      ensures won.smpl[k] == lost.smpl[k] == Bit(Side(home, vstr, k) != 0) && Side(home, vstr, k) in {-1, 0, 1}
      ensures k != TEAM_MOMENTUM_DX ==> won.cnf[k] == Bit(Side(home, vstr, k) == 1) && lost.cnf[k] == Bit(Side(home, vstr, k) == -1)
      ensures k == TEAM_MOMENTUM_DX ==>
        won.cnf[k] + lost.cnf[k] == if won.smpl[k] == 0 then 0 else if OppositeMomentum(home, vstr) then 2 else 1
      ensures (won.cnf[k] != 0 <==> Side(home, vstr, k) == 1) && (lost.cnf[k] != 0 <==> Side(home, vstr, k) == -1)
    {
      hide Predict, EmptyPayrolls, OppositeMomentum, Side;
      SideDecides(home, vstr, k);
      ExactlyOneOutcomeConfirms(home, vstr, k);
      SamplesAreBits(home, vstr, true, k);
    }
    assert Side(home, vstr, TEAM_MOMENTUM_DX) == MomentumNet(home, vstr);
    assert won.smpl == lost.smpl by {
      hide Side;
      ExactlyOneOutcomeConfirms(home, vstr, 0);
    }
    hide Predict, EmptyPayrolls, OppositeMomentum, Side, MomentumNet;
  }

  /** The combined predictor's majority is right for at most one outcome of a game, except
      that opposite momentum counts twice: it is right whoever wins exactly if two more of
      the other predictors speak against momentum than with it. */
  lemma MajorityBothWaysIff(home: Team, vstr: Team)
    requires Plausible(home) && Plausible(vstr) && !EmptyPayrolls(home, vstr)
    ensures var m := MomentumNet(home, vstr);
      MajorityConfirmed(Predict(home, vstr, true)) && MajorityConfirmed(Predict(home, vstr, false))
      <==> OppositeMomentum(home, vstr) && Backers(home, vstr, -m) == Backers(home, vstr, m) + 2
  {
    MajorityShares(home, vstr);
    OppositeIsActive(home, vstr);
    hide Predict, EmptyPayrolls, OppositeMomentum, Side, MomentumNet, Backers, ColumnSum;
  }

  lemma OppositeIsActive(home: Team, vstr: Team)
    requires Plausible(home) && Plausible(vstr)
    ensures OppositeMomentum(home, vstr) ==> MomentumNet(home, vstr) != 0
  {
  }

  // ----- the agreement matrix ------------------------------------------------------------------

  /** In how many of the first j games both predictors made a prediction. */
  function Shared(games: seq<OneGame>, r: nat, c: nat, j: nat): nat
    requires j <= |games| && r < NUM_PREDICTORS && c < NUM_PREDICTORS
  {
    if j == 0 then 0 else Shared(games, r, c, j - 1) + Bit(BothActive(games[j - 1], r, c))
  }

  /** In how many of those they made the same one. */
  function Agreed(games: seq<OneGame>, r: nat, c: nat, j: nat): nat
    requires j <= |games| && r < NUM_PREDICTORS && c < NUM_PREDICTORS
  {
    if j == 0 then 0 else Agreed(games, r, c, j - 1) + Bit(Agree(games[j - 1], r, c))
  }

  /** Both matrices are symmetric, agreements are at most the shared games, and those at
      most either predictor's own. */
  lemma {:induction false} MatrixShape(games: seq<OneGame>, r: nat, c: nat, j: nat)
    requires j <= |games| && r < NUM_PREDICTORS && c < NUM_PREDICTORS
    ensures Shared(games, r, c, j) == Shared(games, c, r, j) && Agreed(games, r, c, j) == Agreed(games, c, r, j)
    ensures Agreed(games, r, c, j) <= Shared(games, r, c, j) <= Shared(games, r, r, j)
    ensures Shared(games, r, c, j) <= Shared(games, c, c, j)
  {
    if j > 0 {
      MatrixShape(games, r, c, j - 1);
    }
  }

  lemma AddGameSample(p: Totals, g: OneGame, k: nat)
    requires BitColumn(g.smpl) && k < NUM_PREDICTORS
    ensures AddGame(p, g).ratios.smplSz[k] == p.ratios.smplSz[k] + Bit(BothActive(g, k, k))
  {
    hide CombinedOf, ColumnSum;
  }

  /** On the diagonal agreements and shared games are the predictor's sample count. */
  lemma {:induction false} MatrixDiagonal(games: seq<OneGame>, k: nat, j: nat)
    requires j <= |games| && AllBits(games) && k < NUM_PREDICTORS
    ensures Agreed(games, k, k, j) == Shared(games, k, k, j) == TotalsAfter(games, j).ratios.smplSz[k]
  {
    hide *;
    if j > 0 {
      OneMoreTotal(games, j);
      OneMoreCount(games, k, k, j);
      AgreesWithItself(games[j - 1], k);
      MatrixDiagonal(games, k, j - 1);
      AddGameSample(TotalsAfter(games, j - 1), games[j - 1], k);
    } else {
      NothingSampled(games, k);
      NothingShared(games, k);
    }
  }

  lemma OneMoreCount(games: seq<OneGame>, r: nat, c: nat, j: nat)
    requires 0 < j <= |games| && r < NUM_PREDICTORS && c < NUM_PREDICTORS
    ensures Shared(games, r, c, j) == Shared(games, r, c, j - 1) + Bit(BothActive(games[j - 1], r, c))
    ensures Agreed(games, r, c, j) == Agreed(games, r, c, j - 1) + Bit(Agree(games[j - 1], r, c))
  {
  }

  lemma AgreesWithItself(g: OneGame, k: nat)
    requires k < NUM_PREDICTORS
    ensures Bit(Agree(g, k, k)) == Bit(BothActive(g, k, k))
  {
  }

  lemma NothingShared(games: seq<OneGame>, k: nat)
    requires k < NUM_PREDICTORS
    ensures Shared(games, k, k, 0) == Agreed(games, k, k, 0) == 0
  {
  }

  // ----- from agreement to independence ------------------------------------------------------------

  /** A floating-point cell: 0 / 0 is not a number. */
  datatype Cell = Num(x: real) | NaN

  /** EvaluateCorrelations, one cell. */
  function Correlation(agreed: nat, shared: nat): Cell {
    if shared == 0 then NaN else Num(agreed as real / shared as real)
  }

  /** RatioLimit: the reciprocal of anything not at most 1. */
  function RatioLimit(c: Cell): Cell {
    match c
    case Num(x) => if x <= 1.0 then c else Num(1.0 / x)
    case NaN => NaN
  }

  /** The limit is at most one, and changes only a ratio above one, into its reciprocal. */
  lemma Reciprocal(x: real)
    requires x >= 0.0
    ensures var r := RatioLimit(Num(x));
      r.Num? && 0.0 <= r.x <= 1.0 && if x <= 1.0 then r.x == x else r.x * x == 1.0
  {
    if x > 1.0 {
      var r := 1.0 / x;
      assert r * x == 1.0;
      assert r > 1.0 ==> r * x > x;
    }
  }

  /** The assertion of OnesComplement, which a cell that is not a number fails. */
  predicate AtMostOne(c: Cell) {
    c.Num? && c.x <= 1.0
  }

  function OnesComplement(c: Cell): (r: Cell)
    requires AtMostOne(c)
    ensures r.Num?
  {
    if c.x >= 1.0 then Num(0.0) else Num(1.0 - c.x)
  }

  lemma RatioRange(agreed: nat, shared: nat)
    requires agreed <= shared && shared > 0
    ensures var x := agreed as real / shared as real;
      && 0.0 <= x <= 1.0 && (x == 1.0 <==> agreed == shared) && (x == 0.0 <==> agreed == 0)
      && (1.0 - x) * shared as real == shared as real - agreed as real
  {
    var x := agreed as real / shared as real;
    assert x * shared as real == agreed as real;
  }

  /** d is the share that `part` has in `whole`. */
  ghost predicate ShareOf(d: real, part: int, whole: int) {
    d * whole as real == part as real
  }

  lemma DivergenceCell(agreed: nat, shared: nat)
    requires agreed <= shared
    ensures var cor := Correlation(agreed, shared);
      && RatioLimit(cor) == cor && (AtMostOne(cor) <==> shared > 0)
      && (AtMostOne(cor) ==>
            var d := OnesComplement(cor).x;
            0.0 <= d <= 1.0 && (d == 0.0 <==> agreed == shared) && ShareOf(d, shared - agreed, shared))
  {
    if shared > 0 {
      RatioRange(agreed, shared);
    }
  }

  /** After any season: the reciprocal pass changes no correlation; the complement's
      assertion holds for a pair of predictors exactly when they shared a game; and then
      its divergence is the share of those games in which they disagreed: it lies in
      [0, 1], is the same both ways, and is zero exactly when they agreed in every shared
      game, so always on the diagonal. */
  lemma Divergence(games: seq<OneGame>, r: nat, c: nat)
    requires AllBits(games) && r < NUM_PREDICTORS && c < NUM_PREDICTORS
    ensures var n := |games|;
      var cor := Correlation(Agreed(games, r, c, n), Shared(games, r, c, n));
      && RatioLimit(cor) == cor == Correlation(Agreed(games, c, r, n), Shared(games, c, r, n))
      && (AtMostOne(cor) <==> Shared(games, r, c, n) > 0)
      && (AtMostOne(cor) ==> 0.0 <= OnesComplement(cor).x <= 1.0)
      && (AtMostOne(cor) ==> ShareOf(OnesComplement(cor).x, Shared(games, r, c, n) - Agreed(games, r, c, n), Shared(games, r, c, n)))
      && (AtMostOne(cor) ==> (OnesComplement(cor).x == 0.0 <==> Agreed(games, r, c, n) == Shared(games, r, c, n)))
      && (AtMostOne(cor) && r == c ==> OnesComplement(cor).x == 0.0)
  {
    var n := |games|;
    hide Agreed, Shared, TotalsAfter, Correlation, RatioLimit, AtMostOne, OnesComplement, ShareOf, AllBits;
    MatrixShape(games, r, c, n);
    MatrixDiagonal(games, r, n);
    DivergenceCell(Agreed(games, r, c, n), Shared(games, r, c, n));
  }

  // ----- the season's run ------------------------------------------------------------------------------

  /** The predictions for the accepted games among the first j entries: each from the
      season's state before the game. */
  function Predictions(s: SeasonState, log: seq<Entry>, j: nat): (games: seq<OneGame>)
    requires |s.teams| == NUM_TEAMS && j <= |log|
    ensures |games| == Accepted(log, j)
    ensures AllBits(games)
  {
    if j == 0 then []
    else
      var e, before := log[j - 1], Predictions(s, log, j - 1);
      if !Recognised(e) then before
      else
        var teams := SeasonAfter(s, log, j - 1).teams;
        PredictIsBits(teams[TeamIndex(e.hometeam)], teams[TeamIndex(e.visitor)], HomeWins(e));
        before + [Predict(teams[TeamIndex(e.hometeam)], teams[TeamIndex(e.visitor)], HomeWins(e))]
  }

  lemma PredictIsBits(home: Team, vstr: Team, homeWin: bool)
    ensures BitColumn(Predict(home, vstr, homeWin).smpl) && Predict(home, vstr, homeWin).smpl[HOME_WIN_DX] == 1
  {
    hide PayrollsDiffer, RecordsDiffer, HistoryNet, MomentumNet;
  }

  /** So over any season of predictions the totals add up to the accepted games, and the
      divergences are as Divergence says. */
  lemma SeasonOfPredictions(s: SeasonState, log: seq<Entry>, r: nat, c: nat)
    requires |s.teams| == NUM_TEAMS && r < NUM_PREDICTORS && c < NUM_PREDICTORS
    ensures var games := Predictions(s, log, |log|);
      && AddsUp(TotalsAfter(games, |games|), Accepted(log, |log|))
      && Agreed(games, r, c, |games|) <= Shared(games, r, c, |games|) <= Accepted(log, |log|)
  {
    var games := Predictions(s, log, |log|);
    TotalsAddUp(games, |games|);
    MatrixShape(games, r, c, |games|);
    SharedAtMostGames(games, r, c, |games|);
  }

  lemma {:induction false} SharedAtMostGames(games: seq<OneGame>, r: nat, c: nat, j: nat)
    requires j <= |games| && r < NUM_PREDICTORS && c < NUM_PREDICTORS
    ensures Shared(games, r, c, j) <= j
  {
    if j > 0 {
      SharedAtMostGames(games, r, c, j - 1);
    }
  }

  /** In a season from the start every team looks as no look-ahead needs it, before every
      game. */
  lemma SeasonTeamsPlausible(s: SeasonState, log: seq<Entry>, j: nat, i: nat)
    requires NewSeason(s) && j <= |log| && i < NUM_TEAMS
    ensures Plausible(SeasonAfter(s, log, j).teams[i])
  {
    TeamsAreIndependent(s, log, j, i);
    var games := GamesOf(i, log, j);
    assert Fresh(Core(s.teams[i]));
    HistoryHasShape(Core(s.teams[i]), games, |games|);
    assert Core(SeasonAfter(s, log, j).teams[i]).gameHist == SeasonAfter(s, log, j).teams[i].gameHist;
    hide SeasonAfter, GamesOf, TeamAfter, NewSeason;
  }

  // ----- a game's prediction is read off the log before it ---------------------------------------------

  /** The record of the two teams' earlier games, in whole numbers. */
  function RecordSide(home: seq<Game>, vstr: seq<Game>): int {
    var w, n, w', n' := CountOf(home, Won, |home|), |home|, CountOf(vstr, Won, |vstr|), |vstr|;
    if n < 10 || n' < 10 then 0
    else if 10 * (w * n' - w' * n) >= n * n' then 1
    else if 10 * (w' * n - w * n') >= n * n' then -1
    else 0
  }

  /** The trend of a team's last 12 games. */
  function TrendOf(games: seq<Game>): int {
    Trend(Results(games, |games|), |games|)
  }

  /** The result of a team that has had it four times running or more. */
  function StreakOf(games: seq<Game>): int {
    var rs := Results(games, |games|);
    if rs == [] || LastRunFrom(rs, 0) < 4 then 0 else rs[|rs| - 1]
  }

  function PayrollSide(home: nat, vstr: nat): int {
    if 1000 * MaxOf(home, vstr) >= 1333 * MinOf(home, vstr) then Sign(home - vstr) else 0
  }

  /** The team that predictor k favours in entry j: the payrolls of the season's start and
      the two teams' games among the first j entries say it. */
  function SideFromLog(s: SeasonState, log: seq<Entry>, j: nat, k: nat): int
    requires |s.teams| == NUM_TEAMS && j < |log| && Recognised(log[j])
  {
    var h, v := TeamIndex(log[j].hometeam), TeamIndex(log[j].visitor);
    var home, vstr := GamesOf(h, log, j), GamesOf(v, log, j);
    if k == HOME_WIN_DX then 1
    else if k == RLTV_PAYROLL_DX then PayrollSide(s.teams[h].payroll, s.teams[v].payroll)
    else if k == RLTV_RECORD_DX then RecordSide(home, vstr)
    else if k == TEAM_HISTORY_DX then Sign(TrendOf(home) - TrendOf(vstr))
    else Sign(StreakOf(home) - StreakOf(vstr))
  }

  /** What the log before entry j makes of team i. */
  lemma TeamFromLog(s: SeasonState, log: seq<Entry>, j: nat, i: nat)
    requires NewSeason(s) && j <= |log| && i < NUM_TEAMS
    ensures var t, games := SeasonAfter(s, log, j).teams[i], GamesOf(i, log, j);
      && t.payroll == s.teams[i].payroll && t.gamesSampled == |games| && t.wins == CountOf(games, Won, |games|)
      && HistoryValue(t.gameHist) == TrendOf(games) && MomentumTrend(t) == StreakOf(games)
  {
    var t, t0, games := SeasonAfter(s, log, j).teams[i], Core(s.teams[i]), GamesOf(i, log, j);
    var u := TeamAfter(t0, games, |games|);
    assert Fresh(t0) && t0.payroll == s.teams[i].payroll;
    hide SeasonAfter, GamesOf, TeamAfter, NewSeason, Fresh, CountOf, HistoryValue, Trend, Results, LastRunFrom;
    TeamsAreIndependent(s, log, j, i);
    assert Core(t) == u && t.payroll == u.payroll && t.gamesSampled == u.gamesSampled && t.wins == u.wins
        && t.gameHist == u.gameHist && t.currMomentum == u.currMomentum;
    PlainCounters(t0, games, |games|);
    HistoryValueIsTrend(t0, games, |games|, Results(games, |games|));
    MomentumOfResults(t0, games, |games|);
    StreakIsMomentum(u, Results(games, |games|));
  }

  lemma StreakIsMomentum(t: Team, rs: seq<Result>)
    requires MomentumMatches(t, rs)
    ensures MomentumTrend(t) == if rs == [] || LastRunFrom(rs, 0) < 4 then 0 else rs[|rs| - 1]
  {
    hide LastRunFrom, ExcessFrom, LongRunsFrom;
  }

  lemma SideIsFromLog(s: SeasonState, log: seq<Entry>, j: nat, k: nat)
    requires NewSeason(s) && |s.teams| == NUM_TEAMS && j < |log| && Recognised(log[j]) && k < NUM_PREDICTORS
    ensures var teams := SeasonAfter(s, log, j).teams;
      Side(teams[TeamIndex(log[j].hometeam)], teams[TeamIndex(log[j].visitor)], k) == SideFromLog(s, log, j, k)
  {
    var h, v := TeamIndex(log[j].hometeam), TeamIndex(log[j].visitor);
    var teams := SeasonAfter(s, log, j).teams;
    hide SeasonAfter, NewSeason, TeamIndex, GamesOf, HistoryValue, MomentumTrend, TrendOf, StreakOf, CountOf, Side, RecordSide,
         PayrollSide;
    TeamFromLog(s, log, j, h);
    TeamFromLog(s, log, j, v);
    if k == HOME_WIN_DX || k == RLTV_PAYROLL_DX {
      PayrollSideIs(teams[h], teams[v]);
    } else if k == RLTV_RECORD_DX {
      RecordSideIs(teams[h], teams[v], GamesOf(h, log, j), GamesOf(v, log, j));
    } else {
      FormSideIs(teams[h], teams[v], k);
    }
  }

  lemma PayrollSideIs(home: Team, vstr: Team)
    ensures Side(home, vstr, HOME_WIN_DX) == 1
    ensures Side(home, vstr, RLTV_PAYROLL_DX) == PayrollSide(home.payroll, vstr.payroll)
  {
    PayrollsDifferIff(home.payroll, vstr.payroll);
    hide PayrollsDiffer, MaxOf, MinOf;
  }

  lemma FormSideIs(home: Team, vstr: Team, k: nat)
    requires k == TEAM_HISTORY_DX || k == TEAM_MOMENTUM_DX
    ensures Side(home, vstr, k) == if k == TEAM_HISTORY_DX then Sign(HistoryValue(home.gameHist) - HistoryValue(vstr.gameHist))
                                   else Sign(MomentumTrend(home) - MomentumTrend(vstr))
  {
    hide HistoryValue, MomentumTrend, PayrollsDiffer, RecordsDiffer, WinRatio;
  }

  lemma RecordSideIs(home: Team, vstr: Team, games: seq<Game>, games': seq<Game>)
    requires home.gamesSampled == |games| && home.wins == CountOf(games, Won, |games|)
    requires vstr.gamesSampled == |games'| && vstr.wins == CountOf(games', Won, |games'|)
    ensures RecordSide(games, games') == Side(home, vstr, RLTV_RECORD_DX)
  {
    var w, n, w', n' := home.wins, home.gamesSampled, vstr.wins, vstr.gamesSampled;
    RecordsDifferIff(home, vstr);
    hide RecordsDiffer, WinRatio, CountOf;
    if n >= 10 && n' >= 10 {
      assert n * n' > 0;
    }
  }

  lemma {:induction false} PredictionsPrefix(s: SeasonState, log: seq<Entry>, j: nat, m: nat)
    requires |s.teams| == NUM_TEAMS && j <= m <= |log|
    ensures Accepted(log, j) <= Accepted(log, m)
    ensures Predictions(s, log, m)[..Accepted(log, j)] == Predictions(s, log, j)
    decreases m
  {
    hide Predict, TeamIndex, Recognised, HomeWins, SeasonAfter;
    if j < m {
      PredictionsPrefix(s, log, j, m - 1);
    }
  }

  /** The prediction of entry j in the whole season's list. */
  lemma PredictionAt(s: SeasonState, log: seq<Entry>, j: nat)
    requires |s.teams| == NUM_TEAMS && j < |log| && Recognised(log[j])
    ensures var n, teams := Accepted(log, j), SeasonAfter(s, log, j).teams;
      && n < |Predictions(s, log, |log|)|
      && Predictions(s, log, |log|)[n]
         == Predict(teams[TeamIndex(log[j].hometeam)], teams[TeamIndex(log[j].visitor)], HomeWins(log[j]))
      && Predictions(s, log, |log|)[..n] == Predictions(s, log, j)
  {
    hide Predict, TeamIndex, HomeWins, SeasonAfter;
    var n := Accepted(log, j);
    PredictionsPrefix(s, log, j, |log|);
    PredictionsPrefix(s, log, j + 1, |log|);
    assert Predictions(s, log, |log|)[n] == Predictions(s, log, |log|)[..n + 1][n];
  }

  /** In a season from its start: a predictor is active in a game exactly if the log before
      that game has it favour a team, and is confirmed exactly if that team wins. Two empty
      payrolls apart, that is the whole prediction of every accepted game. */
  lemma PredictionsFromLog(s: SeasonState, log: seq<Entry>, j: nat, k: nat)
    requires NewSeason(s) && |s.teams| == NUM_TEAMS && j < |log| && Recognised(log[j]) && k < NUM_PREDICTORS
    requires s.teams[TeamIndex(log[j].hometeam)].payroll > 0 || s.teams[TeamIndex(log[j].visitor)].payroll > 0
    ensures Accepted(log, j) < |Predictions(s, log, |log|)|
    ensures var g, side := Predictions(s, log, |log|)[Accepted(log, j)], SideFromLog(s, log, j, k);
      && (g.smpl[k] == 1 <==> side != 0) && side in {-1, 0, 1}
      && (g.cnf[k] != 0 <==> side == if HomeWins(log[j]) then 1 else -1)
  {
    var h, v, teams := TeamIndex(log[j].hometeam), TeamIndex(log[j].visitor), SeasonAfter(s, log, j).teams;
    hide Predict, TeamIndex, HomeWins, SeasonAfter, NewSeason, SideFromLog, Side, Predictions, PayrollsDiffer, Plausible;
    PredictionAt(s, log, j);
    SideIsFromLog(s, log, j, k);
    SeasonTeamsPlausible(s, log, j, h);
    SeasonTeamsPlausible(s, log, j, v);
    TeamFromLog(s, log, j, h);
    TeamFromLog(s, log, j, v);
    EmptyPayrollsIff(teams[h], teams[v]);
    SideDecides(teams[h], teams[v], k);
  }

  lemma {:induction false} SameBefore(s: SeasonState, log: seq<Entry>, log': seq<Entry>, j: nat)
    requires |s.teams| == NUM_TEAMS && j <= |log| && j <= |log'| && forall i :: 0 <= i < j ==> log[i] == log'[i]
    ensures SeasonAfter(s, log, j) == SeasonAfter(s, log', j) && Accepted(log, j) == Accepted(log', j)
    ensures Predictions(s, log, j) == Predictions(s, log', j)
  {
    hide Predict, TeamIndex, Recognised, HomeWins, ExtractGame;
    if j > 0 {
      SameBefore(s, log, log', j - 1);
    }
  }

  /** How the confirmations of a game would have been with the other winner. */
  ghost predicate OtherOutcome(won: OneGame, lost: OneGame, home: Team, vstr: Team) {
    forall k :: 0 <= k < NUM_PREDICTORS ==>
      if won.smpl[k] == 1 then (won.cnf[k] == 0 || lost.cnf[k] == 0) && won.cnf[k] + lost.cnf[k] == Hits(home, vstr, k)
      else won.cnf[k] == lost.cnf[k] == 0
  }

  /** No look-ahead over the season: two logs that agree before entry j and name the same
      teams there make the same predictions for all games up to and including that one,
      whatever its scores and all that follows; the scores decide only which of them come
      true, and two different winners as ExactlyOneOutcomeConfirms says. */
  lemma NoLookAhead(s: SeasonState, log: seq<Entry>, log': seq<Entry>, j: nat)
    requires NewSeason(s) && |s.teams| == NUM_TEAMS && j < |log| && j < |log'| && (forall i :: 0 <= i < j ==> log[i] == log'[i])
    requires log[j].hometeam == log'[j].hometeam && log[j].visitor == log'[j].visitor && Recognised(log[j])
    ensures var p, p', n := Predictions(s, log, |log|), Predictions(s, log', |log'|), Accepted(log, j);
      && n < |p| && n < |p'| && p[..n] == p'[..n] && p[n].smpl == p'[n].smpl
      && (HomeWins(log[j]) == HomeWins(log'[j]) ==> p[n] == p'[n])
      && (HomeWins(log[j]) != HomeWins(log'[j]) ==>
            var teams := SeasonAfter(s, log, j).teams;
            OtherOutcome(p[n], p'[n], teams[TeamIndex(log[j].hometeam)], teams[TeamIndex(log[j].visitor)]))
  {
    var h, v, teams := TeamIndex(log[j].hometeam), TeamIndex(log[j].visitor), SeasonAfter(s, log, j).teams;
    assert Recognised(log'[j]);
    hide Predict, TeamIndex, Recognised, HomeWins, SeasonAfter, NewSeason, Predictions, Accepted, Plausible, OtherOutcome;
    SameBefore(s, log, log', j);
    PredictionAt(s, log, j);
    PredictionAt(s, log', j);
    SeasonTeamsPlausible(s, log, j, h);
    SeasonTeamsPlausible(s, log, j, v);
    OtherOutcomeOf(teams[h], teams[v]);
  }

  lemma OtherOutcomeOf(home: Team, vstr: Team)
    requires Plausible(home) && Plausible(vstr)
    ensures var won, lost := Predict(home, vstr, true), Predict(home, vstr, false);
      won.smpl == lost.smpl && OtherOutcome(won, lost, home, vstr) && OtherOutcome(lost, won, home, vstr)
  {
    hide Predict, Hits, Plausible;
    forall k | 0 <= k < NUM_PREDICTORS
      ensures var won, lost := Predict(home, vstr, true), Predict(home, vstr, false);
        && won.smpl == lost.smpl
        && if won.smpl[k] == 1 then (won.cnf[k] == 0 || lost.cnf[k] == 0) && won.cnf[k] + lost.cnf[k] == Hits(home, vstr, k)
           else won.cnf[k] == lost.cnf[k] == 0
    {
      ExactlyOneOutcomeConfirms(home, vstr, k);
      SamplesAreBits(home, vstr, true, k);
    }
    ExactlyOneOutcomeConfirms(home, vstr, 0);
  }

  // ----- the season's own counters and the predictions ---------------------------------------------------

  lemma StealsDoNotMatter(home: Team, vstr: Team, home': Team, vstr': Team, stats: Stats, homeWin: bool)
    requires Core(home) == Core(home') && Core(vstr) == Core(vstr')
    ensures SeasonStats(stats, home, vstr, homeWin) == SeasonStats(stats, home', vstr', homeWin)
  {
    assert home'.payroll == home.payroll && home'.wins == home.wins && home'.gamesSampled == home.gamesSampled;
    assert vstr'.payroll == vstr.payroll && vstr'.wins == vstr.wins && vstr'.gamesSampled == vstr.gamesSampled;
    hide PayrollsDiffer, PayrollConfirms, Sample;
  }

  /** The season program's payroll and record counters of one game, and its prediction. */
  lemma OwnCountersOf(stats: Stats, home: Team, vstr: Team, homeWin: bool)
    ensures var next, g := SeasonStats(stats, home, vstr, homeWin), Predict(home, vstr, homeWin);
      && next.smplSz[RLTV_RECORD_DX] == stats.smplSz[RLTV_RECORD_DX] + g.smpl[RLTV_RECORD_DX]
      && next.cnfrmd[RLTV_RECORD_DX] == stats.cnfrmd[RLTV_RECORD_DX] + g.cnf[RLTV_RECORD_DX]
      && next.cnfrmd[RLTV_PAYROLL_DX] == stats.cnfrmd[RLTV_PAYROLL_DX] + g.cnf[RLTV_PAYROLL_DX]
      && next.smplSz[RLTV_PAYROLL_DX] + Bit(home.payroll == 0 && vstr.payroll == 0)
         == stats.smplSz[RLTV_PAYROLL_DX] + g.smpl[RLTV_PAYROLL_DX]
  {
    hide HistoryNet, HistoryComesTrue, HistoryValue, MomentumNet, MomentumHits, WinRatio;
  }

  /** Accepted games between two teams without a payroll. */
  function Unpaid(s: SeasonState, log: seq<Entry>, j: nat): nat
    requires |s.teams| == NUM_TEAMS && j <= |log|
  {
    if j == 0 then 0
    else
      var e := log[j - 1];
      Unpaid(s, log, j - 1)
      + Bit(Recognised(e) && s.teams[TeamIndex(e.hometeam)].payroll == 0 && s.teams[TeamIndex(e.visitor)].payroll == 0)
  }

  /** The season program and the correlation program count the same payroll and record
      predictions over a season, sampled and confirmed, except that the one leaves out
      games between two teams without a payroll and the other samples them. */
  lemma {:induction false} SeasonCountersAgree(s: SeasonState, log: seq<Entry>, j: nat)
    requires NewSeason(s) && |s.teams| == NUM_TEAMS && j <= |log|
    ensures CountersAgree(SeasonAfter(s, log, j).stats, Predictions(s, log, j), Unpaid(s, log, j))
  {
    if j > 0 {
      hide *;
      OneMoreEntry(s, log, j, 0);
      OneMorePrediction(s, log, j);
      SeasonCountersAgree(s, log, j - 1);
      var t, e := SeasonAfter(s, log, j - 1), log[j - 1];
      if Recognised(e) {
        var h, v := TeamIndex(e.hometeam), TeamIndex(e.visitor);
        SeasonStatsOf(t, e);
        TeamFromLog(s, log, j - 1, h);
        TeamFromLog(s, log, j - 1, v);
        CountersStep(t.stats, Predictions(s, log, j - 1), Unpaid(s, log, j - 1), t.teams[h], t.teams[v], HomeWins(e));
      } else {
        RejectedChangesNothing(t, e);
      }
    } else {
      hide TeamIndex, ExtractGame;
    }
  }

  lemma OneMorePrediction(s: SeasonState, log: seq<Entry>, j: nat)
    requires |s.teams| == NUM_TEAMS && 0 < j <= |log|
    ensures var e, before, teams := log[j - 1], Predictions(s, log, j - 1), SeasonAfter(s, log, j - 1).teams;
      if Recognised(e) then
        && 0 <= TeamIndex(e.hometeam) < NUM_TEAMS && 0 <= TeamIndex(e.visitor) < NUM_TEAMS
        && Predictions(s, log, j) == before + [Predict(teams[TeamIndex(e.hometeam)], teams[TeamIndex(e.visitor)], HomeWins(e))]
        && Unpaid(s, log, j) == Unpaid(s, log, j - 1)
             + Bit(s.teams[TeamIndex(e.hometeam)].payroll == 0 && s.teams[TeamIndex(e.visitor)].payroll == 0)
      else Predictions(s, log, j) == before && Unpaid(s, log, j) == Unpaid(s, log, j - 1)
  {
    hide Predict, TeamIndex, HomeWins, SeasonAfter;
  }

  ghost predicate CountersAgree(stats: Stats, p: seq<OneGame>, unpaid: nat) {
    && stats.smplSz[RLTV_RECORD_DX] == Sampled(p, RLTV_RECORD_DX, |p|)
    && stats.cnfrmd[RLTV_RECORD_DX] == Confirmed(p, RLTV_RECORD_DX, |p|)
    && stats.cnfrmd[RLTV_PAYROLL_DX] == Confirmed(p, RLTV_PAYROLL_DX, |p|)
    && stats.smplSz[RLTV_PAYROLL_DX] + unpaid == Sampled(p, RLTV_PAYROLL_DX, |p|)
  }

  lemma CountersStep(stats: Stats, before: seq<OneGame>, unpaid: nat, home: Team, vstr: Team, homeWin: bool)
    requires CountersAgree(stats, before, unpaid)
    ensures CountersAgree(SeasonStats(stats, home, vstr, homeWin), before + [Predict(home, vstr, homeWin)],
                          unpaid + Bit(home.payroll == 0 && vstr.payroll == 0))
  {
    hide Predict, SeasonStats, Sampled, Confirmed;
    var g := Predict(home, vstr, homeWin);
    OwnCountersOf(stats, home, vstr, homeWin);
    SumsAppend(before, g, RLTV_RECORD_DX);
    SumsAppend(before, g, RLTV_PAYROLL_DX);
  }

  lemma SeasonStatsOf(s: SeasonState, e: Entry)
    requires |s.teams| == NUM_TEAMS && Recognised(e)
    ensures ExtractGame(s, e).stats
         == SeasonStats(s.stats, s.teams[TeamIndex(e.hometeam)], s.teams[TeamIndex(e.visitor)], HomeWins(e))
  {
    var h, v := TeamIndex(e.hometeam), TeamIndex(e.visitor);
    var teams1 := WithSteals(s.teams, e);
    assert ExtractGame(s, e).stats == SeasonStats(s.stats, teams1[h], teams1[v], HomeWins(e)) by {
      hide TeamIndex, TeamStep, Steals, SeasonStats;
    }
    hide TeamIndex, WithSteals, ExtractGame, SeasonStats, Core;
    StealsKeepCore(s.teams, e, h);
    StealsKeepCore(s.teams, e, v);
    StealsDoNotMatter(s.teams[h], s.teams[v], teams1[h], teams1[v], s.stats, HomeWins(e));
  }

  lemma {:induction false} SumsKeep(games: seq<OneGame>, g: OneGame, k: nat, j: nat)
    requires j <= |games| && k < NUM_PREDICTORS
    ensures Sampled(games + [g], k, j) == Sampled(games, k, j) && Confirmed(games + [g], k, j) == Confirmed(games, k, j)
  {
    if j > 0 {
      SumsKeep(games, g, k, j - 1);
    }
  }

  lemma SumsAppend(games: seq<OneGame>, g: OneGame, k: nat)
    requires k < NUM_PREDICTORS
    ensures Sampled(games + [g], k, |games + [g]|) == Sampled(games, k, |games|) + g.smpl[k]
    ensures Confirmed(games + [g], k, |games + [g]|) == Confirmed(games, k, |games|) + g.cnf[k]
  {
    SumsKeep(games, g, k, |games|);
  }

  // ----- the predictors in place ------------------------------------------------------------------------

  lemma {:induction false} CountsKeep(games: seq<OneGame>, g: OneGame, r: nat, c: nat, j: nat)
    requires j <= |games| && r < NUM_PREDICTORS && c < NUM_PREDICTORS
    ensures Shared(games + [g], r, c, j) == Shared(games, r, c, j) && Agreed(games + [g], r, c, j) == Agreed(games, r, c, j)
  {
    if j > 0 {
      CountsKeep(games, g, r, c, j - 1);
    }
  }

  lemma CountsAppend(games: seq<OneGame>, g: OneGame, r: nat, c: nat)
    requires r < NUM_PREDICTORS && c < NUM_PREDICTORS
    ensures Shared(games + [g], r, c, |games| + 1) == Shared(games, r, c, |games|) + Bit(BothActive(g, r, c))
    ensures Agreed(games + [g], r, c, |games| + 1) == Agreed(games, r, c, |games|) + Bit(Agree(g, r, c))
  {
    CountsKeep(games, g, r, c, |games|);
  }

  lemma {:induction false} TotalsKeep(games: seq<OneGame>, g: OneGame, j: nat)
    requires j <= |games| && AllBits(games) && AllBits(games + [g])
    ensures TotalsAfter(games + [g], j) == TotalsAfter(games, j)
  {
    hide AddGame;
    if j > 0 {
      TotalsKeep(games, g, j - 1);
    }
  }

  method PredictGame(home: TeamData, vstr: TeamData, homeWin: bool) returns (one: OneGame)
    ensures one == Predict(home.State(), vstr.State(), homeWin)
  {
    hide PayrollsDiffer, PayrollConfirms, RecordsDiffer, RecordComesTrue, HistoryNet, HistoryComesTrue, HistoryValue,
         MomentumNet, MomentumTrend, MomentumHits;
    var payrollActive, payrollHit := PayrollPrediction(home, vstr, homeWin);
    var recordActive, recordHit := RecordPrediction(home, vstr, homeWin);
    var historyActive, historyHit := HistoryPrediction(home, vstr, homeWin);
    var momentumActive, hits := MomentumPrediction(home, vstr, homeWin);
    one := OneGame(
      [1, Bit(payrollActive), Bit(recordActive), Bit(historyActive), Bit(momentumActive)],
      [Bit(homeWin), Bit(payrollActive && payrollHit), Bit(recordActive && recordHit), Bit(historyActive && historyHit),
       if momentumActive then hits else 0]);
  }

  method PayrollPrediction(home: TeamData, vstr: TeamData, homeWin: bool) returns (active: bool, hit: bool)
    ensures active <==> PayrollsDiffer(home.State().payroll, vstr.State().payroll)
    ensures active ==> (hit <==> PayrollConfirms(home.State().payroll, vstr.State().payroll, homeWin))
  {
    hide PayrollsDiffer;
    active, hit := PayrollsDiffer(home.payroll, vstr.payroll), false;
    if active {
      if home.payroll > vstr.payroll && homeWin {
        hit := true;
      }
      if home.payroll < vstr.payroll && !homeWin {
        hit := true;
      }
    }
  }

  method RecordPrediction(home: TeamData, vstr: TeamData, homeWin: bool) returns (active: bool, hit: bool)
    ensures active <==> RecordsDiffer(home.State(), vstr.State())
    ensures active ==> (hit <==> RecordComesTrue(home.State(), vstr.State(), homeWin))
  {
    active, hit := false, false;
    if home.gamesSampled >= RLTV_RECORD_MIN_GAMES && vstr.gamesSampled >= RLTV_RECORD_MIN_GAMES {
      var homeWinPc := home.wins as real / home.gamesSampled as real;
      var vstrWinPc := vstr.wins as real / vstr.gamesSampled as real;
      assert homeWinPc == WinRatio(home.State()) && vstrWinPc == WinRatio(vstr.State());
      hide WinRatio;
      var rltvRecord := homeWinPc - vstrWinPc;
      if Abs(rltvRecord) >= RLTV_RECORD_THRESHOLD {
        active := true;
        if rltvRecord > 0.0 {
          hit := homeWin;
        } else {
          hit := !homeWin;
        }
      }
    }
  }

  method HistoryPrediction(home: TeamData, vstr: TeamData, homeWin: bool) returns (active: bool, hit: bool)
    ensures active <==> HistoryNet(home.State(), vstr.State()) != 0
    ensures active ==>
      (hit <==> HistoryComesTrue(HistoryValue(home.State().gameHist), HistoryValue(vstr.State().gameHist), homeWin))
  {
    HistoryRange(home.State());
    HistoryRange(vstr.State());
    hide HistoryValue;
    var homeTrend := home.HistoryTrend();
    var vstrTrend := vstr.HistoryTrend();
    active, hit := Sign(homeTrend - vstrTrend) != 0, false;
    if active {
      if homeTrend == 1 && homeWin {
        hit := true;
      }
      if homeTrend == -1 && !homeWin {
        hit := true;
      }
      if homeTrend == 0 {
        if vstrTrend == 1 && !homeWin {
          hit := true;
        }
        if vstrTrend == -1 && homeWin {
          hit := true;
        }
      }
    }
  }

  method MomentumPrediction(home: TeamData, vstr: TeamData, homeWin: bool) returns (active: bool, hits: nat)
    ensures active <==> MomentumNet(home.State(), vstr.State()) != 0
    ensures active ==> hits == MomentumHits(MomentumTrend(home.State()), MomentumTrend(vstr.State()), homeWin)
  {
    var homeTrend, vstrTrend := 0, 0;
    if home.currMomentum >= MOMENTUM_THRESHOLD {
      homeTrend := home.gameHist[RECENT_HISTORY_LEN - 1];
    }
    if vstr.currMomentum >= MOMENTUM_THRESHOLD {
      vstrTrend := vstr.gameHist[RECENT_HISTORY_LEN - 1];
    }
    active, hits := Sign(homeTrend - vstrTrend) != 0, 0;
    if active {
      if homeTrend == 1 && homeWin {
        hits := 1;
      }
      if homeTrend == -1 && !homeWin {
        hits := 1;
      }
      if vstrTrend == 1 && !homeWin {
        hits := hits + 1;
      }
      if vstrTrend == -1 && homeWin {
        hits := hits + 1;
      }
    }
  }

  class PredictorData {
    var totalGamesSampled: nat
    var smplSz: Column
    var cnfrmd: Column
    var numHistoryWeeded: nat
    var numMomentumWeeded: nat
    var combinedSampleSize: nat
    var numCombinedCorrect: nat
    var combinedRateSum: real
    var rateIncreaseSum: real
    const smplMatrix: array2<nat>
    const cnfrmdMatrix: array2<nat>
    ghost var games: seq<OneGame>

    ghost function CurrentTotals(): Totals
      reads this
    {
      Totals(totalGamesSampled, Stats(smplSz, cnfrmd), numHistoryWeeded, numMomentumWeeded,
             combinedSampleSize, numCombinedCorrect, combinedRateSum, rateIncreaseSum)
    }

    ghost predicate Square() {
      && smplMatrix != cnfrmdMatrix
      && smplMatrix.Length0 == smplMatrix.Length1 == NUM_PREDICTORS
      && cnfrmdMatrix.Length0 == cnfrmdMatrix.Length1 == NUM_PREDICTORS
    }

    /** The totals and both matrices are those of the games predicted so far. */
    ghost predicate Valid()
      reads this, smplMatrix, cnfrmdMatrix
    {
      && Square() && AllBits(games) && CurrentTotals() == TotalsAfter(games, |games|)
      && forall r, c :: 0 <= r < NUM_PREDICTORS && 0 <= c < NUM_PREDICTORS ==>
           smplMatrix[r, c] == Shared(games, r, c, |games|) && cnfrmdMatrix[r, c] == Agreed(games, r, c, |games|)
    }

    constructor ()
      ensures Valid() && games == []
      ensures fresh(smplMatrix) && fresh(cnfrmdMatrix)
    {
      totalGamesSampled, numHistoryWeeded, numMomentumWeeded, combinedSampleSize, numCombinedCorrect := 0, 0, 0, 0, 0;
      smplSz, cnfrmd, combinedRateSum, rateIncreaseSum := [0, 0, 0, 0, 0], [0, 0, 0, 0, 0], 0.0, 0.0;
      smplMatrix := new nat[NUM_PREDICTORS, NUM_PREDICTORS]((_, _) => 0);
      cnfrmdMatrix := new nat[NUM_PREDICTORS, NUM_PREDICTORS]((_, _) => 0);
      games := [];
    }

    method UpdateCorrelationValues(one: OneGame)
      requires Square()
      modifies smplMatrix, cnfrmdMatrix
      ensures forall r, c :: 0 <= r < NUM_PREDICTORS && 0 <= c < NUM_PREDICTORS ==>
        && smplMatrix[r, c] == old(smplMatrix[r, c]) + Bit(BothActive(one, r, c))
        && cnfrmdMatrix[r, c] == old(cnfrmdMatrix[r, c]) + Bit(Agree(one, r, c))
    {
      for row := 0 to NUM_PREDICTORS
        invariant forall r, c :: 0 <= r < NUM_PREDICTORS && 0 <= c < NUM_PREDICTORS ==>
          && smplMatrix[r, c] == old(smplMatrix[r, c]) + (if r < row then Bit(BothActive(one, r, c)) else 0)
          && cnfrmdMatrix[r, c] == old(cnfrmdMatrix[r, c]) + (if r < row then Bit(Agree(one, r, c)) else 0)
      {
        for col := 0 to NUM_PREDICTORS
          invariant forall r, c :: 0 <= r < NUM_PREDICTORS && 0 <= c < NUM_PREDICTORS ==>
            && smplMatrix[r, c] == old(smplMatrix[r, c]) + (if r < row || (r == row && c < col) then Bit(BothActive(one, r, c)) else 0)
            && cnfrmdMatrix[r, c] == old(cnfrmdMatrix[r, c]) + (if r < row || (r == row && c < col) then Bit(Agree(one, r, c)) else 0)
        {
          if one.smpl[row] == 1 && one.smpl[col] == 1 {
            smplMatrix[row, col] := smplMatrix[row, col] + 1;
            if one.cnf[row] == one.cnf[col] {
              cnfrmdMatrix[row, col] := cnfrmdMatrix[row, col] + 1;
            }
          }
        }
      }
    }

    /** The totals of one more game, the combined predictor's among them. */
    method CollateGame(one: OneGame)
      requires BitColumn(one.smpl)
      modifies `totalGamesSampled, `smplSz, `cnfrmd, `numHistoryWeeded, `numMomentumWeeded,
               `combinedSampleSize, `numCombinedCorrect, `combinedRateSum, `rateIncreaseSum
      ensures CurrentTotals() == AddGame(old(CurrentTotals()), one)
    {
      hide AddColumns, Combined, Inputs, ColumnSum, BitColumn, UnitWeights, Distinct, MaxNet;
      totalGamesSampled := totalGamesSampled + 1;
      if one.smpl[TEAM_HISTORY_DX] == 0 {
        numHistoryWeeded := numHistoryWeeded + 1;
      }
      if one.smpl[TEAM_MOMENTUM_DX] == 0 {
        numMomentumWeeded := numMomentumWeeded + 1;
      }
      smplSz := AddColumns(smplSz, one.smpl);
      cnfrmd := AddColumns(cnfrmd, one.cnf);
      if 2 * ColumnSum(one.smpl) > NUM_PREDICTORS {
        SourceInputs(one.smpl);
        var rate, increase := ComputeCombinedPredictor(NET_PREDICTOR_RATES, one.smpl, PREDICTOR_DIVERGENCE_MATRIX);
        if rate > 0.0 {
          combinedSampleSize := combinedSampleSize + 1;
          if 2 * ColumnSum(one.cnf) > ColumnSum(one.smpl) {
            numCombinedCorrect := numCombinedCorrect + 1;
          }
          combinedRateSum := combinedRateSum + rate;
          rateIncreaseSum := rateIncreaseSum + increase;
        }
      }
    }

    /** ExtractPredictorData for a recognised game. */
    method ExtractPredictorData(home: TeamData, vstr: TeamData, homeWin: bool)
      requires Valid()
      modifies this, smplMatrix, cnfrmdMatrix
      ensures Valid()
      ensures games == old(games) + [Predict(home.State(), vstr.State(), homeWin)]
    {
      hide Predict, AddGame, Shared, Agreed, BothActive, Agree;
      var one := PredictGame(home, vstr, homeWin);
      PredictIsBits(home.State(), vstr.State(), homeWin);
      ghost var before := games;
      assert AllBits(before + [one]);
      TotalsKeep(before, one, |before|);
      CollateGame(one);
      UpdateCorrelationValues(one);
      games := games + [one];
      forall r, c | 0 <= r < NUM_PREDICTORS && 0 <= c < NUM_PREDICTORS
        ensures smplMatrix[r, c] == Shared(games, r, c, |games|) && cnfrmdMatrix[r, c] == Agreed(games, r, c, |games|)
      {
        CountsAppend(before, one, r, c);
      }
    }

    method EvaluateCorrelations(correlations: array2<Cell>)
      requires Valid() && correlations.Length0 == correlations.Length1 == NUM_PREDICTORS
      modifies correlations
      ensures forall r, c :: 0 <= r < NUM_PREDICTORS && 0 <= c < NUM_PREDICTORS ==>
        correlations[r, c] == Correlation(Agreed(games, r, c, |games|), Shared(games, r, c, |games|))
    {
      hide Shared, Agreed;
      for row := 0 to NUM_PREDICTORS
        invariant forall r, c :: 0 <= r < row && 0 <= c < NUM_PREDICTORS ==>
          correlations[r, c] == Correlation(Agreed(games, r, c, |games|), Shared(games, r, c, |games|))
      {
        for col := 0 to NUM_PREDICTORS
          invariant forall r, c :: 0 <= r <= row && 0 <= c < (if r == row then col else NUM_PREDICTORS) ==>
            correlations[r, c] == Correlation(Agreed(games, r, c, |games|), Shared(games, r, c, |games|))
        {
          correlations[row, col] := Correlation(cnfrmdMatrix[row, col], smplMatrix[row, col]);
        }
      }
    }
  }

  method InvertMatrixRatios(correlations: array2<Cell>)
    modifies correlations
    ensures forall r, c :: 0 <= r < correlations.Length0 && 0 <= c < correlations.Length1 ==>
      correlations[r, c] == RatioLimit(old(correlations[r, c]))
  {
    for row := 0 to correlations.Length0
      invariant forall r, c :: 0 <= r < correlations.Length0 && 0 <= c < correlations.Length1 ==>
        correlations[r, c] == if r < row then RatioLimit(old(correlations[r, c])) else old(correlations[r, c])
    {
      for col := 0 to correlations.Length1
        invariant forall r, c :: 0 <= r < correlations.Length0 && 0 <= c < correlations.Length1 ==>
          correlations[r, c] == if r < row || (r == row && c < col) then RatioLimit(old(correlations[r, c])) else old(correlations[r, c])
      {
        correlations[row, col] := RatioLimit(correlations[row, col]);
      }
    }
  }

  /** ConvertCor2Ind; `fired` if the complement's assertion fails for some cell. */
  method ConvertCor2Ind(correlations: array2<Cell>, independencies: array2<Cell>) returns (fired: bool)
    requires correlations != independencies
    requires correlations.Length0 == independencies.Length0 && correlations.Length1 == independencies.Length1
    modifies independencies
    ensures !fired <==> forall r, c :: 0 <= r < correlations.Length0 && 0 <= c < correlations.Length1 ==> AtMostOne(correlations[r, c])
    ensures !fired ==> forall r, c :: 0 <= r < correlations.Length0 && 0 <= c < correlations.Length1 ==>
      AtMostOne(correlations[r, c]) && independencies[r, c] == OnesComplement(correlations[r, c])
  {
    for row := 0 to correlations.Length0
      invariant forall r, c :: 0 <= r < row && 0 <= c < correlations.Length1 ==>
        AtMostOne(correlations[r, c]) && independencies[r, c] == OnesComplement(correlations[r, c])
    {
      for col := 0 to correlations.Length1
        invariant forall r, c :: 0 <= r <= row && 0 <= c < (if r == row then col else correlations.Length1) ==>
          AtMostOne(correlations[r, c]) && independencies[r, c] == OnesComplement(correlations[r, c])
      {
        if !AtMostOne(correlations[row, col]) {
          return true;
        }
        independencies[row, col] := OnesComplement(correlations[row, col]);
      }
    }
    return false;
  }

  ghost predicate SharedByAll(games: seq<OneGame>) {
    forall r, c :: 0 <= r < NUM_PREDICTORS && 0 <= c < NUM_PREDICTORS ==> Shared(games, r, c, |games|) > 0
  }

  /** A divergence matrix: entries in [0, 1], the same both ways, zero on the diagonal. */
  ghost predicate IsDivergence(m: array2<Cell>)
    requires m.Length0 == m.Length1 == NUM_PREDICTORS
    reads m
  {
    forall r, c :: 0 <= r < NUM_PREDICTORS && 0 <= c < NUM_PREDICTORS ==>
      && m[r, c].Num? && 0.0 <= m[r, c].x <= 1.0 && m[r, c] == m[c, r] && (r == c ==> m[r, c].x == 0.0)
  }

  /** The cell holds the share of the games of a pair in which the two disagreed. */
  ghost predicate DisagreedShare(games: seq<OneGame>, r: nat, c: nat, cell: Cell)
    requires r < NUM_PREDICTORS && c < NUM_PREDICTORS
  {
    cell.Num? && ShareOf(cell.x, Shared(games, r, c, |games|) - Agreed(games, r, c, |games|), Shared(games, r, c, |games|))
  }

  /** The last steps of the correlation program: correlations, reciprocals, divergences.
      The complement's assertion fires exactly if some pair of predictors never shared a
      game; otherwise the result is a divergence matrix, each cell the share of the games
      in which its pair disagreed. */
  method DeriveDivergences(predictors: PredictorData, correlations: array2<Cell>, divergences: array2<Cell>) returns (fired: bool)
    requires predictors.Valid() && correlations != divergences
    requires correlations.Length0 == correlations.Length1 == divergences.Length0 == divergences.Length1 == NUM_PREDICTORS
    modifies correlations, divergences
    ensures !fired <==> SharedByAll(predictors.games)
    ensures !fired ==> IsDivergence(divergences)
    ensures !fired ==> forall r, c :: 0 <= r < NUM_PREDICTORS && 0 <= c < NUM_PREDICTORS ==>
      DisagreedShare(predictors.games, r, c, divergences[r, c])
  {
    hide Shared, Agreed, Correlation, RatioLimit, AtMostOne, OnesComplement, TotalsAfter, AllBits, ShareOf;
    ghost var games := predictors.games;
    predictors.EvaluateCorrelations(correlations);
    forall r, c | 0 <= r < NUM_PREDICTORS && 0 <= c < NUM_PREDICTORS
      ensures RatioLimit(correlations[r, c]) == correlations[r, c] == correlations[c, r]
      ensures AtMostOne(correlations[r, c]) <==> Shared(games, r, c, |games|) > 0
      ensures AtMostOne(correlations[r, c]) ==>
        var d := OnesComplement(correlations[r, c]);
        d.Num? && 0.0 <= d.x <= 1.0 && (r == c ==> d.x == 0.0) && DisagreedShare(games, r, c, d)
    {
      Divergence(games, r, c);
    }
    InvertMatrixRatios(correlations);
    fired := ConvertCor2Ind(correlations, divergences);
  }

  /** The season loop of the correlation program: each accepted entry is first predicted
      from the state before it, then played. */
  method RunSeason(season: SeasonData, predictors: PredictorData, log: seq<Entry>) returns (numExamined: nat)
    requires season.Valid() && predictors.Valid() && predictors.games == []
    modifies season, season.teamData, predictors, predictors.smplMatrix, predictors.cnfrmdMatrix
    ensures season.Valid() && predictors.Valid()
    ensures numExamined == Accepted(log, |log|)
    ensures season.State() == SeasonAfter(old(season.State()), log, |log|)
    ensures predictors.games == Predictions(old(season.State()), log, |log|)
  {
    hide Predict, ExtractGame, TeamIndex, HomeWins, Shared, Agreed, TotalsAfter, AllBits, StatesOf;
    ghost var s := season.State();
    numExamined := 0;
    for j := 0 to |log|
      invariant season.Valid() && predictors.Valid()
      invariant numExamined == Accepted(log, j)
      invariant season.State() == SeasonAfter(s, log, j)
      invariant predictors.games == Predictions(s, log, j)
    {
      var e := log[j];
      if Recognised(e) {
        var home, vstr := season.teamData[TeamIndex(e.hometeam)], season.teamData[TeamIndex(e.visitor)];
        assert home.State() == season.State().teams[TeamIndex(e.hometeam)];
        assert vstr.State() == season.State().teams[TeamIndex(e.visitor)];
        predictors.ExtractPredictorData(home, vstr, HomeWins(e));
        var accepted := season.ExtractGameData(e);
        numExamined := numExamined + 1;
      } else {
        RejectedChangesNothing(SeasonAfter(s, log, j), e);
      }
    }
  }
}
