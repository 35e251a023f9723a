/** The combined predictor: the best active predictor's margin over even odds plus the
    others' margins, each weighted by how independent it is of the best one. */
module CombinedPredictor {

  type Rates = seq<real>

  /** Which predictors are active: 1 or 0 per predictor. */
  ghost predicate ActiveSet(active: seq<nat>) {
    forall i :: 0 <= i < |active| ==> active[i] <= 1
  }

  ghost predicate Shapes(rates: Rates, active: seq<nat>, weights: seq<seq<real>>) {
    && 0 < |rates| == |active| == |weights|
    && (forall i :: 0 <= i < |weights| ==> |weights[i]| == |rates|)
  }

  ghost predicate UnitWeights(weights: seq<seq<real>>) {
    forall i, j :: 0 <= i < |weights| && 0 <= j < |weights[i]| ==> 0.0 <= weights[i][j] <= 1.0
  }

  ghost predicate Positive(rates: Rates) {
    forall i :: 0 <= i < |rates| ==> rates[i] > 0.0
  }

  ghost predicate Distinct(rates: Rates) {
    forall i, j :: 0 <= i < j < |rates| ==> rates[i] != rates[j]
  }

  /** The margin of predictor i as it takes part. */
  function Net(rates: Rates, active: seq<nat>, i: nat): real
    requires i < |rates| == |active|
  {
    rates[i] * active[i] as real
  }

  function MaxNet(rates: Rates, active: seq<nat>, j: nat): (m: real)
    requires 0 < j <= |rates| == |active|
    ensures exists i :: 0 <= i < j && m == Net(rates, active, i)
    ensures forall i :: 0 <= i < j ==> Net(rates, active, i) <= m
  {
    if j == 1 then Net(rates, active, 0)
    else
      var m := MaxNet(rates, active, j - 1);
      if Net(rates, active, j - 1) > m then Net(rates, active, j - 1) else m
  }

  /** The first position of a rate among all the rates, active or not. */
  function FirstIndex(rates: Rates, r: real, j: nat): (i: nat)
    requires j <= |rates| && exists k :: j <= k < |rates| && rates[k] == r
    ensures j <= i < |rates| && rates[i] == r && forall k :: j <= k < i ==> rates[k] != r
    decreases |rates| - j
  {
    if rates[j] == r then j else FirstIndex(rates, r, j + 1)
  }

  /** The margin of predictor x, weighted by its independence of the best one. */
  function Weighted(rates: Rates, active: seq<nat>, weights: seq<seq<real>>, best: nat, x: nat): real
    requires Shapes(rates, active, weights) && best < |rates| && x < |rates|
  {
    Net(rates, active, x) * weights[x][best]
  }

  /** The weighted margins of the first j predictors but the one at `best`. */
  function Others(rates: Rates, active: seq<nat>, weights: seq<seq<real>>, best: nat, j: nat): real
    requires Shapes(rates, active, weights) && best < |rates| && j <= |rates|
  {
    if j == 0 then 0.0
    else
      var before := Others(rates, active, weights, best, j - 1);
      if j - 1 == best then before else before + Weighted(rates, active, weights, best, j - 1)
  }

  function SumNet(rates: Rates, active: seq<nat>, j: nat): real
    requires j <= |rates| == |active|
  {
    if j == 0 then 0.0 else SumNet(rates, active, j - 1) + Net(rates, active, j - 1)
  }

  ghost predicate Inputs(rates: Rates, active: seq<nat>, weights: seq<seq<real>>) {
    Shapes(rates, active, weights) && ActiveSet(active) && Positive(rates)
  }

  lemma BestIsARate(rates: Rates, active: seq<nat>)
    requires 0 < |rates| == |active| && ActiveSet(active) && Positive(rates)
    ensures var m := MaxNet(rates, active, |rates|);
      && m >= 0.0
      && (m == 0.0 <==> forall i :: 0 <= i < |rates| ==> active[i] == 0)
      && (m > 0.0 ==> exists k :: 0 <= k < |rates| && rates[k] == m && active[k] == 1)
  {
    var m := MaxNet(rates, active, |rates|);
    forall i | 0 <= i < |rates|
      ensures Net(rates, active, i) == if active[i] == 0 then 0.0 else rates[i]
    {
    }
    assert Net(rates, active, 0) <= m;
  }

  /** Where the source looks the best rate up: the first predictor with that rate. */
  function BestIndex(rates: Rates, active: seq<nat>): (b: nat)
    requires 0 < |rates| == |active| && ActiveSet(active) && Positive(rates) && MaxNet(rates, active, |rates|) > 0.0
    ensures b < |rates| && rates[b] == MaxNet(rates, active, |rates|)
  {
    BestIsARate(rates, active);
    FirstIndex(rates, MaxNet(rates, active, |rates|), 0)
  }

  /** ComputeCombinedPredictor: the combined rate and its increase over the best rate,
      or two zeros if there is nothing to combine. */
  function Combined(rates: Rates, active: seq<nat>, weights: seq<seq<real>>): (real, real)
    requires Inputs(rates, active, weights)
  {
    var best := MaxNet(rates, active, |rates|);
    if best == 0.0 then (0.0, 0.0)
    else
      BestIsARate(rates, active);
      var combined := best + Others(rates, active, weights, BestIndex(rates, active), |rates|);
      if combined <= best then (0.0, 0.0) else (combined + 0.5, combined + 0.5 - (best + 0.5))
  }

  method ComputeCombinedPredictor(rates: Rates, active: seq<nat>, weights: seq<seq<real>>) returns (combinedRate: real, increase: real)
    requires Inputs(rates, active, weights)
    ensures (combinedRate, increase) == Combined(rates, active, weights)
  {
    var best := MaxNet(rates, active, |rates|);
    if best == 0.0 {
      return 0.0, 0.0;
    }
    BestIsARate(rates, active);
    var maxPredDx := FirstIndex(rates, best, 0);
    hide MaxNet, FirstIndex, Weighted, Positive, ActiveSet;
    var combined := best;
    var x := 0;
    while x < |rates|
      invariant 0 <= x <= |rates|
      invariant combined == best + Others(rates, active, weights, maxPredDx, x)
    {
      if x != maxPredDx {
        combined := combined + Weighted(rates, active, weights, maxPredDx, x);
      }
      x := x + 1;
    }
    if combined <= best {
      return 0.0, 0.0;
    }
    combined := combined + 0.5;
    return combined, combined - (best + 0.5);
  }

  // ----- bounds ----------------------------------------------------------------------

  lemma Scaled(n: real, w: real)
    requires n >= 0.0 && 0.0 <= w <= 1.0
    ensures 0.0 <= n * w <= n
  {
    assert n * (1.0 - w) >= 0.0;
  }

  lemma NetRange(rates: Rates, active: seq<nat>, i: nat)
    requires i < |rates| == |active| && ActiveSet(active) && Positive(rates)
    ensures Net(rates, active, i) == (if active[i] == 0 then 0.0 else rates[i]) >= 0.0
  {
  }

  lemma WeightedRange(rates: Rates, active: seq<nat>, weights: seq<seq<real>>, best: nat, x: nat)
    requires Inputs(rates, active, weights) && UnitWeights(weights) && best < |rates| && x < |rates|
    ensures 0.0 <= Weighted(rates, active, weights, best, x) <= Net(rates, active, x)
    ensures Weighted(rates, active, weights, best, x) > 0.0 <==> active[x] == 1 && weights[x][best] > 0.0
  {
    NetRange(rates, active, x);
    Scaled(Net(rates, active, x), weights[x][best]);
    if active[x] == 1 && weights[x][best] > 0.0 {
      assert rates[x] * weights[x][best] > 0.0;
    }
  }

  /** Each of the other predictors adds between nothing and its own margin. */
  lemma {:induction false} OthersBound(rates: Rates, active: seq<nat>, weights: seq<seq<real>>, best: nat, j: nat)
    requires Inputs(rates, active, weights) && UnitWeights(weights) && best < |rates| && j <= |rates|
    ensures 0.0 <= Others(rates, active, weights, best, j)
    ensures Others(rates, active, weights, best, j) + (if best < j then Net(rates, active, best) else 0.0) <= SumNet(rates, active, j)
  {
    hide Weighted, Net;
    if j > 0 {
      OthersBound(rates, active, weights, best, j - 1);
      WeightedRange(rates, active, weights, best, j - 1);
    }
  }

  /** Some other active predictor is not completely dependent on the best one. */
  ghost predicate Helped(active: seq<nat>, weights: seq<seq<real>>, best: nat, j: nat)
    requires j <= |active| == |weights| && best < |active| && forall i :: 0 <= i < |weights| ==> |weights[i]| == |active|
  {
    exists x :: 0 <= x < j && x != best && active[x] == 1 && weights[x][best] > 0.0
  }

  lemma {:induction false} OthersPositiveIff(rates: Rates, active: seq<nat>, weights: seq<seq<real>>, best: nat, j: nat)
    requires Inputs(rates, active, weights) && UnitWeights(weights) && best < |rates| && j <= |rates|
    ensures Others(rates, active, weights, best, j) > 0.0 <==> Helped(active, weights, best, j)
  {
    hide Weighted, Net;
    if j > 0 {
      OthersPositiveIff(rates, active, weights, best, j - 1);
      OthersBound(rates, active, weights, best, j - 1);
      WeightedRange(rates, active, weights, best, j - 1);
    }
  }

  // ----- the combined rate --------------------------------------------------------------

  /** With any rates, the combined rate is two zeros or at least strictly better than
      the best active rate, and by the increase it reports. */
  lemma CombinedImproves(rates: Rates, active: seq<nat>, weights: seq<seq<real>>)
    requires Inputs(rates, active, weights)
    ensures var (rate, increase) := Combined(rates, active, weights);
      (rate, increase) == (0.0, 0.0)
      || (increase > 0.0 && rate == 0.5 + MaxNet(rates, active, |rates|) + increase)
  {
  }

  /** With distinct rates the predictor the source takes for the best is an active one. */
  lemma DistinctBestIsActive(rates: Rates, active: seq<nat>)
    requires 0 < |rates| == |active| && ActiveSet(active) && Positive(rates) && Distinct(rates)
    requires MaxNet(rates, active, |rates|) > 0.0
    ensures active[BestIndex(rates, active)] == 1
  {
    BestIsARate(rates, active);
  }

  /** If the predictor looked up as the best is active, the combined rate stays within
      even odds plus all active margins. */
  lemma CombinedBound(rates: Rates, active: seq<nat>, weights: seq<seq<real>>)
    requires Inputs(rates, active, weights) && UnitWeights(weights)
    requires MaxNet(rates, active, |rates|) > 0.0 ==> active[BestIndex(rates, active)] == 1
    ensures Combined(rates, active, weights).0 <= 0.5 + SumNet(rates, active, |rates|)
  {
    SumNetPositive(rates, active, |rates|);
    BestIsARate(rates, active);
    if MaxNet(rates, active, |rates|) > 0.0 {
      OthersBound(rates, active, weights, BestIndex(rates, active), |rates|);
      NetRange(rates, active, BestIndex(rates, active));
    }
    hide MaxNet, Others, Net, SumNet;
  }

  lemma {:induction false} SumNetPositive(rates: Rates, active: seq<nat>, j: nat)
    requires j <= |rates| == |active| && ActiveSet(active) && Positive(rates)
    ensures SumNet(rates, active, j) >= 0.0
  {
    if j > 0 {
      SumNetPositive(rates, active, j - 1);
      NetRange(rates, active, j - 1);
    }
  }

  function Sum(rates: Rates, j: nat): real
    requires j <= |rates|
  {
    if j == 0 then 0.0 else Sum(rates, j - 1) + rates[j - 1]
  }

  lemma {:induction false} ActiveSumAtMostAll(rates: Rates, active: seq<nat>, j: nat)
    requires j <= |rates| == |active| && ActiveSet(active) && Positive(rates)
    ensures SumNet(rates, active, j) <= Sum(rates, j)
  {
    if j > 0 {
      ActiveSumAtMostAll(rates, active, j - 1);
      NetRange(rates, active, j - 1);
    }
  }

  /** For distinct positive rates, unit weights and any active set: the result is two
      zeros exactly if no other active predictor helps; otherwise it lies strictly above
      the best active rate and at most at even odds plus all active margins, its increase
      is the difference to the best, and it is a probability if all margins add up to
      less than one half. */
  lemma CombinedRate(rates: Rates, active: seq<nat>, weights: seq<seq<real>>)
    requires Inputs(rates, active, weights) && UnitWeights(weights) && Distinct(rates)
    ensures var (rate, increase) := Combined(rates, active, weights);
      var best := MaxNet(rates, active, |rates|);
      && ((rate, increase) == (0.0, 0.0) <==> best == 0.0 || !Helped(active, weights, BestIndex(rates, active), |rates|))
      && ((rate, increase) != (0.0, 0.0) ==>
            0.5 + best < rate <= 0.5 + SumNet(rates, active, |rates|) && increase == rate - (0.5 + best) > 0.0)
      && (Sum(rates, |rates|) < 0.5 ==> rate < 1.0)
  {
    BestIsARate(rates, active);
    if MaxNet(rates, active, |rates|) > 0.0 {
      DistinctBestIsActive(rates, active);
      OthersPositiveIff(rates, active, weights, BestIndex(rates, active), |rates|);
    }
    CombinedBound(rates, active, weights);
    CombinedImproves(rates, active, weights);
    ActiveSumAtMostAll(rates, active, |rates|);
    hide MaxNet, Others, Net, SumNet, Sum, Helped;
  }

  // ----- what the others add ----------------------------------------------------------------

  ghost predicate Nonnegative(weights: seq<seq<real>>) {
    forall i, j :: 0 <= i < |weights| && 0 <= j < |weights[i]| ==> weights[i][j] >= 0.0
  }

  lemma {:induction false} OthersNonnegative(rates: Rates, active: seq<nat>, weights: seq<seq<real>>, best: nat, j: nat)
    requires Inputs(rates, active, weights) && Nonnegative(weights) && best < |rates| && j <= |rates|
    ensures Others(rates, active, weights, best, j) >= 0.0
  {
    if j > 0 {
      OthersNonnegative(rates, active, weights, best, j - 1);
      NetRange(rates, active, j - 1);
      assert Net(rates, active, j - 1) * weights[j - 1][best] >= 0.0;
    }
  }

  /** The increase is what the others add to the best. */
  lemma IncreaseIsOthers(rates: Rates, active: seq<nat>, weights: seq<seq<real>>)
    requires Inputs(rates, active, weights) && Nonnegative(weights) && MaxNet(rates, active, |rates|) > 0.0
    ensures Combined(rates, active, weights).1 == Others(rates, active, weights, BestIndex(rates, active), |rates|)
  {
    OthersNonnegative(rates, active, weights, BestIndex(rates, active), |rates|);
    hide Others, MaxNet;
  }

  /** Nobody but predictors x and best is active among the first j. */
  ghost predicate OnlyHelper(active: seq<nat>, best: nat, x: nat) {
    forall i :: 0 <= i < |active| && i != best && i != x ==> active[i] == 0
  }

  lemma {:induction false} OneHelperAdds(rates: Rates, active: seq<nat>, weights: seq<seq<real>>, best: nat, x: nat, j: nat)
    requires Inputs(rates, active, weights) && best < |rates| && x < |rates| && x != best && j <= |rates|
    requires active[x] == 1 && OnlyHelper(active, best, x)
    ensures Others(rates, active, weights, best, j) == if x < j then rates[x] * weights[x][best] else 0.0
  {
    if j > 0 {
      OneHelperAdds(rates, active, weights, best, x, j - 1);
      NetRange(rates, active, j - 1);
      if j - 1 != best && j - 1 != x {
        assert Weighted(rates, active, weights, best, j - 1) == 0.0;
      }
    }
  }

  /** With one other active predictor the increase is its rate times its weight. */
  lemma OneHelper(rates: Rates, active: seq<nat>, weights: seq<seq<real>>, x: nat)
    requires Inputs(rates, active, weights) && Nonnegative(weights) && MaxNet(rates, active, |rates|) > 0.0
    requires x < |rates| && x != BestIndex(rates, active) && active[x] == 1 && OnlyHelper(active, BestIndex(rates, active), x)
    ensures Combined(rates, active, weights).1 == rates[x] * weights[x][BestIndex(rates, active)]
  {
    hide Others, MaxNet, Combined, OnlyHelper, Positive;
    IncreaseIsOthers(rates, active, weights);
    OneHelperAdds(rates, active, weights, BestIndex(rates, active), x, |rates|);
  }

  /** The helpers of u are those of a and those of b. */
  ghost predicate Splits(u: seq<nat>, a: seq<nat>, b: seq<nat>, best: nat) {
    |u| == |a| == |b| && forall i :: 0 <= i < |u| && i != best ==> u[i] == a[i] + b[i]
  }

  lemma {:induction false} OthersAdd(rates: Rates, u: seq<nat>, a: seq<nat>, b: seq<nat>, weights: seq<seq<real>>, best: nat, j: nat)
    requires Shapes(rates, u, weights) && Splits(u, a, b, best) && best < |rates| && j <= |rates|
    ensures Others(rates, u, weights, best, j) == Others(rates, a, weights, best, j) + Others(rates, b, weights, best, j)
  {
    if j > 0 {
      OthersAdd(rates, u, a, b, weights, best, j - 1);
      if j - 1 != best {
        NetAdds(rates[j - 1], u[j - 1], a[j - 1], b[j - 1], weights[j - 1][best]);
      }
    }
  }

  lemma NetAdds(rate: real, u: nat, a: nat, b: nat, w: real)
    requires u == a + b
    ensures rate * u as real * w == rate * a as real * w + rate * b as real * w
  {
    assert rate * u as real == rate * a as real + rate * b as real;
  }

  /** The increase is additive over disjoint sets of helpers of the same best predictor. */
  lemma IncreaseAdds(rates: Rates, u: seq<nat>, a: seq<nat>, b: seq<nat>, weights: seq<seq<real>>)
    requires Inputs(rates, u, weights) && Inputs(rates, a, weights) && Inputs(rates, b, weights) && Nonnegative(weights)
    requires MaxNet(rates, u, |rates|) == MaxNet(rates, a, |rates|) == MaxNet(rates, b, |rates|) > 0.0
    requires Splits(u, a, b, BestIndex(rates, u))
    ensures Combined(rates, u, weights).1 == Combined(rates, a, weights).1 + Combined(rates, b, weights).1
  {
    hide Others, MaxNet, Combined;
    IncreaseIsOthers(rates, u, weights);
    IncreaseIsOthers(rates, a, weights);
    IncreaseIsOthers(rates, b, weights);
    assert BestIndex(rates, u) == BestIndex(rates, a) == BestIndex(rates, b);
    OthersAdd(rates, u, a, b, weights, BestIndex(rates, u), |rates|);
  }

  /** Weights c times as large. */
  ghost predicate Rescaled(weights: seq<seq<real>>, weights': seq<seq<real>>, c: real) {
    && |weights'| == |weights| && (forall i :: 0 <= i < |weights| ==> |weights'[i]| == |weights[i]|)
    && (forall i, j :: 0 <= i < |weights| && 0 <= j < |weights[i]| ==> weights'[i][j] == c * weights[i][j])
  }

  lemma {:induction false} OthersScale(rates: Rates, active: seq<nat>, weights: seq<seq<real>>, weights': seq<seq<real>>, c: real, best: nat, j: nat)
    requires Shapes(rates, active, weights) && Shapes(rates, active, weights') && Rescaled(weights, weights', c)
    requires best < |rates| && j <= |rates|
    ensures Others(rates, active, weights', best, j) == c * Others(rates, active, weights, best, j)
  {
    if j > 0 {
      OthersScale(rates, active, weights, weights', c, best, j - 1);
      var n, w := Net(rates, active, j - 1), weights[j - 1][best];
      assert n * (c * w) == c * (n * w);
    }
  }

  /** Scaling every weight scales the increase. */
  lemma IncreaseScales(rates: Rates, active: seq<nat>, weights: seq<seq<real>>, weights': seq<seq<real>>, c: real)
    requires Inputs(rates, active, weights) && Inputs(rates, active, weights') && Nonnegative(weights) && c >= 0.0
    requires Rescaled(weights, weights', c)
    ensures Combined(rates, active, weights').1 == c * Combined(rates, active, weights).1
  {
    BestIsARate(rates, active);
    if MaxNet(rates, active, |rates|) > 0.0 {
      forall i, j | 0 <= i < |weights'| && 0 <= j < |weights'[i]|
        ensures weights'[i][j] >= 0.0
      {
        assert weights'[i][j] == c * weights[i][j] && weights[i][j] >= 0.0;
      }
      IncreaseIsOthers(rates, active, weights);
      IncreaseIsOthers(rates, active, weights');
      OthersScale(rates, active, weights, weights', c, BestIndex(rates, active), |rates|);
    }
    hide Others, MaxNet;
  }

  // ----- rates that are not distinct -------------------------------------------------------

  /** All other predictors fully independent of each other. */
  function FullWeights(n: nat): (w: seq<seq<real>>)
    ensures |w| == n && forall i :: 0 <= i < n ==> |w[i]| == n && forall j :: 0 <= j < n ==> w[i][j] == 1.0
  {
    seq(n, _ => seq(n, _ => 1.0))
  }

  lemma {:induction false} FullOthers(rates: Rates, active: seq<nat>, best: nat, j: nat)
    requires Inputs(rates, active, FullWeights(|rates|)) && best < |rates| && j <= |rates|
    ensures Others(rates, active, FullWeights(|rates|), best, j)
         == SumNet(rates, active, j) - if best < j then Net(rates, active, best) else 0.0
  {
    if j > 0 {
      FullOthers(rates, active, best, j - 1);
      assert Weighted(rates, active, FullWeights(|rates|), best, j - 1) == Net(rates, active, j - 1);
      hide Weighted, Net;
    }
  }

  /** The bound by the active margins holds for all weights exactly when the first
      predictor that has the best active rate is itself active. */
  lemma BoundHoldsIff(rates: Rates, active: seq<nat>)
    requires 0 < |rates| == |active| && ActiveSet(active) && Positive(rates) && MaxNet(rates, active, |rates|) > 0.0
    ensures (forall weights :: Shapes(rates, active, weights) && UnitWeights(weights) ==>
               Combined(rates, active, weights).0 <= 0.5 + SumNet(rates, active, |rates|))
       <==> active[BestIndex(rates, active)] == 1
  {
    if active[BestIndex(rates, active)] == 1 {
      forall weights | Shapes(rates, active, weights) && UnitWeights(weights)
        ensures Combined(rates, active, weights).0 <= 0.5 + SumNet(rates, active, |rates|)
      {
        CombinedBound(rates, active, weights);
      }
    } else {
      var w := FullWeights(|rates|);
      var b := BestIndex(rates, active);
      FullOthers(rates, active, b, |rates|);
      NetRange(rates, active, b);
      SumAtLeastBest(rates, active, |rates|);
      assert Combined(rates, active, w).0 > 0.5 + SumNet(rates, active, |rates|);
      assert Shapes(rates, active, w) && UnitWeights(w);
    }
  }

  lemma {:induction false} SumAtLeastBest(rates: Rates, active: seq<nat>, j: nat)
    requires 0 < j <= |rates| == |active| && ActiveSet(active) && Positive(rates)
    ensures SumNet(rates, active, j) >= MaxNet(rates, active, j)
  {
    if j > 1 {
      SumAtLeastBest(rates, active, j - 1);
      SumNetPositive(rates, active, j - 1);
      NetRange(rates, active, j - 1);
    }
  }

  /** The source's five margins are distinct, positive and add up to less than one half. */
  const NET_PREDICTOR_RATES: Rates := [0.038, 0.046, 0.077, 0.097, 0.181]

  lemma SourceRatesQualify()
    ensures Positive(NET_PREDICTOR_RATES) && Distinct(NET_PREDICTOR_RATES) && Sum(NET_PREDICTOR_RATES, 5) < 0.5
  {
    var r := NET_PREDICTOR_RATES;
    assert Sum(r, 1) == 0.038 && Sum(r, 2) == 0.084 && Sum(r, 3) == 0.161 && Sum(r, 4) == 0.258;
  }
}
