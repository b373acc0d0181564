// The ensemble predictor: cross-validation weights, feature expansion, the
// 0.6/0.25/0.15 fusion of the ensemble with the two market models, the
// confidence filter, the strategic and risk summaries and value-bet detection.
// The fitted estimators, the scaler and `np.std` are parameters; the random
// draws of the feature expansion are passed in as a `Draws` value.

module MlPredictor {
  import opened Wrappers
  import opened MarketModels

  /** The fitted scaler and the three estimators' `predict_proba`. */
  datatype Estimators = Estimators(
    scaler: seq<real> -> seq<real>,
    rf: seq<real> -> Dist,
    gb: seq<real> -> Dist,
    lr: seq<real> -> Dist)

  ghost predicate ValidEstimators(e: Estimators) {
    forall x :: e.rf(x).IsDistribution() && e.gb(x).IsDistribution() && e.lr(x).IsDistribution()
  }

  /** `np.std` is abstract; all the model uses is that it is never negative. */
  ghost predicate StdRange(std: seq<real> -> real) {
    forall s :: std(s) >= 0.0
  }

  datatype Weights = Weights(rf: real, gb: real, lr: real)

  /**
   * The `model_weights` of `_train_ensemble`: each mean cross-validation score
   * over their total. A zero total gives NaN weights in numpy; here it gives None.
   */
  function EnsembleWeights(rfScore: real, gbScore: real, lrScore: real): (r: Option<Weights>)
    ensures r.Some? <==> rfScore + gbScore + lrScore != 0.0
    ensures r.Some? ==> r.value.rf + r.value.gb + r.value.lr == 1.0
    ensures r.Some? && rfScore >= 0.0 && gbScore >= 0.0 && lrScore >= 0.0 ==>
      r.value.rf >= 0.0 && r.value.gb >= 0.0 && r.value.lr >= 0.0
    ensures r.Some? ==> r.value.rf * (rfScore + gbScore + lrScore) == rfScore
    ensures r.Some? ==> r.value.gb * (rfScore + gbScore + lrScore) == gbScore
    ensures r.Some? ==> r.value.lr * (rfScore + gbScore + lrScore) == lrScore
  {
    var total := rfScore + gbScore + lrScore;
    if total == 0.0 then None
    else
      DivSum(rfScore, gbScore, lrScore, total);
      Some(Weights(rfScore / total, gbScore / total, lrScore / total))
  }

  /** The random draws of `_enhance_features`: two normal noises and two uniform factors. */
  datatype Draws = Draws(homeXgNoise: real, awayXgNoise: real, weather: real, injury: real)

  /** The five appended signals: home xG, away xG, weather, injury and motivation. */
  function Signals(base: seq<real>, d: Draws): (r: seq<real>)
    requires |base| >= 6
    ensures |r| == 5
  {
    [base[3] * 0.8 + d.homeXgNoise, base[5] * 0.8 + d.awayXgNoise, d.weather, d.injury,
     (base[0] + base[2] * 0.5) / 1.5]
  }

  /** The base features followed by the signals, cut to the twelve the scaler expects. */
  function Enhanced(base: seq<real>, d: Draws): seq<real>
    requires |base| >= 6
  {
    (base + Signals(base, d))[..Min2Int(|base| + 5, 12)]
  }

  /** The motivation signal weighs recent form twice as much as head-to-head,
      so it lies between the two. */
  lemma MotivationBetweenFormAndH2h(base: seq<real>, d: Draws)
    requires |base| >= 6
    ensures var m := Signals(base, d)[4];
      (base[0] <= base[2] ==> base[0] <= m <= base[2]) && (base[2] <= base[0] ==> base[2] <= m <= base[0])
    ensures Signals(base, d)[4] * 3.0 == base[0] * 2.0 + base[2]
  {
  }

  // ----------------------------------------------------------------- fusion

  /** `rf·w_rf + gb·w_gb + lr·w_lr`. */
  function Ensemble(w: Weights, rf: Dist, gb: Dist, lr: Dist): Dist {
    rf.Scale(w.rf).Plus(gb.Scale(w.gb)).Plus(lr.Scale(w.lr))
  }

  /** `ensemble·0.6 + market·0.25 + sharp·0.15`, before the final normalisation. */
  function Fuse(ensemble: Dist, market: Dist, sharp: Dist): Dist {
    ensemble.Scale(0.6).Plus(market.Scale(0.25)).Plus(sharp.Scale(0.15))
  }

  lemma ScaleTotal(d: Dist, k: real)
    ensures d.Scale(k).Total() == d.Total() * k
  {
    assert d.home * k + d.draw * k + d.away * k == (d.home + d.draw + d.away) * k;
  }

  lemma ScaleNonNegative(d: Dist, k: real)
    requires d.NonNegative() && k >= 0.0
    ensures d.Scale(k).NonNegative()
  {
  }

  /** Weights summing to one mix three distributions into a distribution. */
  lemma {:induction false} EnsembleIsDistribution(w: Weights, rf: Dist, gb: Dist, lr: Dist)
    requires w.rf + w.gb + w.lr == 1.0
    requires rf.Total() == 1.0 && gb.Total() == 1.0 && lr.Total() == 1.0
    ensures Ensemble(w, rf, gb, lr).Total() == 1.0
    ensures (w.rf >= 0.0 && w.gb >= 0.0 && w.lr >= 0.0 && rf.NonNegative() && gb.NonNegative()
             && lr.NonNegative()) ==> Ensemble(w, rf, gb, lr).NonNegative()
  {
    ScaleTotal(rf, w.rf);
    ScaleTotal(gb, w.gb);
    ScaleTotal(lr, w.lr);
    if w.rf >= 0.0 && w.gb >= 0.0 && w.lr >= 0.0 && rf.NonNegative() && gb.NonNegative() && lr.NonNegative() {
      ScaleNonNegative(rf, w.rf);
      ScaleNonNegative(gb, w.gb);
      ScaleNonNegative(lr, w.lr);
    }
  }

  /** The fusion weights sum to one, so three totals of one fuse into a total of one. */
  lemma {:induction false} FusionIsDistribution(ensemble: Dist, market: Dist, sharp: Dist)
    requires ensemble.Total() == 1.0 && market.Total() == 1.0 && sharp.Total() == 1.0
    ensures Fuse(ensemble, market, sharp).Total() == 1.0
    ensures ensemble.NonNegative() && market.Positive() && sharp.Positive() ==>
      Fuse(ensemble, market, sharp).Positive()
  {
    ScaleTotal(ensemble, 0.6);
    ScaleTotal(market, 0.25);
    ScaleTotal(sharp, 0.15);
  }

  /** Normalising a total of one changes nothing. */
  lemma NormalizeOne(d: Dist)
    requires d.Total() == 1.0
    ensures Normalize(d) == d
  {
  }

  // ------------------------------------------------------------- confidence

  /** `_apply_magajico_filter_v2` over the first seven features, capped at one. */
  function MagajicoConfidence(probs: Dist, features: seq<real>, sharp: SharpAnalysis, std: seq<real> -> real): (r: real)
    requires |features| >= 7
    ensures r <= 1.0
    ensures ConfidenceBlend(probs, features, sharp, std) <= 1.0 ==> r == ConfidenceBlend(probs, features, sharp, std)
  {
    Min2(1.0, ConfidenceBlend(probs, features, sharp, std))
  }

  /** The six weighted checks of the confidence filter before the cap. */
  function ConfidenceBlend(probs: Dist, features: seq<real>, sharp: SharpAnalysis, std: seq<real> -> real): real
    requires |features| >= 7
  {
    var base := probs.Max();
    var consensus := 1.0 - std(probs.AsSeq()) * 2.0;
    var market := sharp.sharpConfidence;
    var confirmation := Min2(1.0, sharp.sharpConfidence + Abs(sharp.lineMovement) * 0.5);
    var quality := Mean(features[..7]) * 0.8 + (1.0 - std(features[..7])) * 0.2;
    var risk := 1.0 - (std(probs.AsSeq()) + Abs(sharp.lineMovement) * 0.5) / 2.0;
    base * 0.4 + consensus * 0.15 + market * 0.15 + confirmation * 0.15 + quality * 0.08 + risk * 0.07
  }

  /** There is no lower cap: features with a negative mean drive the confidence below zero. */
  lemma {:induction false} ConfidenceHasNoFloor(probs: Dist, sharp: SharpAnalysis, std: seq<real> -> real)
    requires probs.IsDistribution() && StdRange(std)
    requires sharp.sharpConfidence == 0.0 && sharp.lineMovement == 0.0
    ensures MagajicoConfidence(probs, [-100.0, -100.0, -100.0, -100.0, -100.0, -100.0, -100.0], sharp, std) < 0.0
  {
    var f := [-100.0, -100.0, -100.0, -100.0, -100.0, -100.0, -100.0];
    assert f[..7] == f;
    assert SeqSum(f) == -700.0;
    assert Mean(f[..7]) == -100.0;
    assert probs.Max() <= 1.0;
    assert std(probs.AsSeq()) >= 0.0 && std(f) >= 0.0;
  }

  // ------------------------------------------------------ strategic summary

  /** Python's `int()` on a float: truncation toward zero. */
  function Trunc(x: real): (r: int)
    ensures x >= 0.0 ==> 0 <= r && r as real <= x < r as real + 1.0
    ensures x < 0.0 ==> r <= 0 && r as real - 1.0 < x <= r as real
  {
    if x >= 0.0 then x.Floor else -((-x).Floor)
  }

  datatype MarketPosition = MarketLeader | StrongPosition | Competitive | Uncertain

  /** `_determine_market_position`. */
  function DetermineMarketPosition(prob: real, sharpConfidence: real): (r: MarketPosition)
    ensures r == MarketLeader <==> prob > 0.8 && sharpConfidence > 0.75
    ensures r == Uncertain <==> prob <= 0.6
  {
    if prob > 0.8 && sharpConfidence > 0.75 then MarketLeader
    else if prob > 0.7 && sharpConfidence > 0.6 then StrongPosition
    else if prob > 0.6 then Competitive
    else Uncertain
  }

  function PositionRank(p: MarketPosition): nat {
    match p
    case Uncertain => 0
    case Competitive => 1
    case StrongPosition => 2
    case MarketLeader => 3
  }

  /** A higher probability and a higher sharp confidence never give a weaker position. */
  lemma MarketPositionMonotone(p1: real, s1: real, p2: real, s2: real)
    requires p1 <= p2 && s1 <= s2
    ensures PositionRank(DetermineMarketPosition(p1, s1)) <= PositionRank(DetermineMarketPosition(p2, s2))
  {
  }

  datatype RiskLevel = Low | Medium | High

  /** `np.var`: the population variance. */
  function Variance(s: seq<real>): (r: real)
    requires |s| > 0
    ensures r >= 0.0
  {
    SquaresNonNegative(s, Mean(s));
    Mean(SquaredDeviations(s, Mean(s)))
  }

  function SquaredDeviations(s: seq<real>, m: real): (r: seq<real>)
    ensures |r| == |s|
  {
    if s == [] then [] else [(s[0] - m) * (s[0] - m)] + SquaredDeviations(s[1..], m)
  }

  lemma {:induction false} SquaresNonNegative(s: seq<real>, m: real)
    ensures SeqSum(SquaredDeviations(s, m)) >= 0.0
  {
    if s != [] {
      SquaresNonNegative(s[1..], m);
      var d := SquaredDeviations(s, m);
      assert d[1..] == SquaredDeviations(s[1..], m);
      SquareNonNegative(s[0] - m);
    }
  }

  lemma SquareNonNegative(x: real)
    ensures x * x >= 0.0
  {
    if x < 0.0 {
      assert x * x == (-x) * (-x);
    }
  }

  /** The composite risk: probability variance plus half the absolute line movement. */
  function RiskScore(probs: Dist, lineMovement: real): (r: real)
    ensures r >= 0.0
  {
    Variance(probs.AsSeq()) + Abs(lineMovement) * 0.5
  }

  function ClassifyRisk(total: real): (r: RiskLevel)
    ensures r == Low <==> total < 0.1
    ensures r == Medium <==> 0.1 <= total < 0.2
    ensures r == High <==> total >= 0.2
  {
    if total < 0.1 then Low else if total < 0.2 then Medium else High
  }

  /** `_calculate_risk_level`. */
  function CalculateRiskLevel(probs: Dist, lineMovement: real): RiskLevel {
    ClassifyRisk(RiskScore(probs, lineMovement))
  }

  datatype RiskMetrics = RiskMetrics(
    probabilityVariance: real,
    marketVolatility: real,
    confidenceSpread: real,
    sharpMoneyRisk: real,
    overallRiskScore: real)

  /** `_calculate_risk_metrics`. */
  function CalculateRiskMetrics(probs: Dist, sharp: SharpAnalysis): (m: RiskMetrics)
    ensures m.confidenceSpread >= 0.0 && m.probabilityVariance >= 0.0 && m.marketVolatility >= 0.0
    ensures m.overallRiskScore == m.probabilityVariance + m.marketVolatility * 0.5
    ensures ClassifyRisk(m.overallRiskScore) == CalculateRiskLevel(probs, sharp.lineMovement)
    ensures m.sharpMoneyRisk + sharp.sharpConfidence == 1.0
  {
    RiskMetrics(Variance(probs.AsSeq()), Abs(sharp.lineMovement), probs.Max() - probs.Min(),
                1.0 - sharp.sharpConfidence, RiskScore(probs, sharp.lineMovement))
  }

  // -------------------------------------------------------------- value bets

  datatype BetConfidence = HighConfidence | MediumConfidence

  datatype ValueBet = ValueBet(
    outcome: Outcome,
    edgePercentage: real,
    modelProbability: real,
    marketProbability: real,
    recommendedOdds: real,
    confidenceLevel: BetConfidence)

  /** `1 / market_odd if market_odd > 0 else 0`. */
  function Implied(odd: real): real {
    if odd > 0.0 then 1.0 / odd else 0.0
  }

  function OutcomeIndex(o: Outcome): nat {
    match o
    case Home => 0
    case Draw => 1
    case Away => 2
  }

  lemma EdgeAboveTenth(p: real, implied: real)
    requires implied > 0.0 && p > implied * 1.1
    ensures (p - implied) / implied > 0.1
  {
    var e := (p - implied) / implied;
    assert e * implied == p - implied;
  }

  /** The report for one outcome: empty unless the model beats the implied probability by 10%. */
  function BetFor(o: Outcome, probs: Dist, odds: Dist): (r: seq<ValueBet>)
    requires odds.Positive()
    ensures |r| <= 1
    ensures r != [] <==> probs.At(o) > Implied(odds.At(o)) * 1.1
    ensures r != [] ==>
      (r[0].outcome == o && r[0].modelProbability == probs.At(o)
       && r[0].marketProbability == Implied(odds.At(o)) && r[0].recommendedOdds == odds.At(o)
       && r[0].edgePercentage > 10.0
       && (r[0].confidenceLevel == HighConfidence <==> r[0].edgePercentage > 20.0))
  {
    var p := probs.At(o);
    var implied := Implied(odds.At(o));
    if p > implied * 1.1 then
      var edge := (p - implied) / implied;
      EdgeAboveTenth(p, implied);
      [ValueBet(o, edge * 100.0, p, implied, odds.At(o), if edge > 0.2 then HighConfidence else MediumConfidence)]
    else []
  }

  /** The value bets of `_identify_value_bets`, in home, draw, away order. */
  function ValueBets(probs: Dist, odds: Dist): (r: seq<ValueBet>)
    requires odds.Positive()
    ensures |r| <= 3
  {
    BetFor(Home, probs, odds) + BetFor(Draw, probs, odds) + BetFor(Away, probs, odds)
  }

  /** An outcome is reported exactly when the model beats the implied probability by 10%. */
  lemma {:induction false} ValueBetsReported(probs: Dist, odds: Dist, o: Outcome)
    requires odds.Positive()
    ensures (exists b :: b in ValueBets(probs, odds) && b.outcome == o)
      <==> probs.At(o) > Implied(odds.At(o)) * 1.1
  {
    var h, d, a := BetFor(Home, probs, odds), BetFor(Draw, probs, odds), BetFor(Away, probs, odds);
    var r := h + d + a;
    assert r == ValueBets(probs, odds);
    if probs.At(o) > Implied(odds.At(o)) * 1.1 {
      var b := BetFor(o, probs, odds)[0];
      assert b in r;
    } else {
      forall b | b in r
        ensures b.outcome != o
      {
        if b in h { assert b == h[0]; } else if b in d { assert b == d[0]; } else { assert b == a[0]; }
      }
    }
  }

  /** Every reported bet carries the model and implied probabilities of its outcome and an edge above 10%. */
  lemma {:induction false} ValueBetFacts(probs: Dist, odds: Dist, b: ValueBet)
    requires odds.Positive() && b in ValueBets(probs, odds)
    ensures b.modelProbability == probs.At(b.outcome)
    ensures b.marketProbability == Implied(odds.At(b.outcome))
    ensures b.modelProbability > b.marketProbability * 1.1
    ensures b.recommendedOdds == odds.At(b.outcome)
    ensures b.edgePercentage > 10.0
    ensures b.confidenceLevel == HighConfidence <==> b.edgePercentage > 20.0
  {
    var h, d, a := BetFor(Home, probs, odds), BetFor(Draw, probs, odds), BetFor(Away, probs, odds);
    assert b in h + d + a;
    if b in h { assert b == h[0]; } else if b in d { assert b == d[0]; } else { assert b == a[0]; }
  }

  /** Reports keep the home, draw, away order. */
  lemma {:induction false} ValueBetsOrdered(probs: Dist, odds: Dist)
    requires odds.Positive()
    ensures var r := ValueBets(probs, odds);
      forall i, j :: 0 <= i < j < |r| ==> OutcomeIndex(r[i].outcome) < OutcomeIndex(r[j].outcome)
  {
    var h, d, a := BetFor(Home, probs, odds), BetFor(Draw, probs, odds), BetFor(Away, probs, odds);
    var r := h + d + a;
    assert r == ValueBets(probs, odds);
    forall k | 0 <= k < |r|
      ensures OutcomeIndex(r[k].outcome) == if k < |h| then 0 else if k < |h| + |d| then 1 else 2
    {
      if k < |h| { assert r[k] == h[k]; }
      else if k < |h| + |d| { assert r[k] == d[k - |h|]; }
      else { assert r[k] == a[k - |h| - |d|]; }
    }
  }

  /** The loop over the three outcomes builds the same list. */
  lemma BetsOverOutcomes(probs: Dist, odds: Dist)
    requires odds.Positive()
    ensures BetsOver([Home, Draw, Away], probs, odds) == ValueBets(probs, odds)
  {
    var os := [Home, Draw, Away];
    assert os[..2] == [Home, Draw] && os[2] == Away;
    assert [Home, Draw][..1] == [Home];
    assert [Home][..0] == [];
    var h, d, a := BetFor(Home, probs, odds), BetFor(Draw, probs, odds), BetFor(Away, probs, odds);
    assert BetsOver([Home], probs, odds) == h;
    assert BetsOver([Home, Draw], probs, odds) == h + d;
    assert BetsOver(os, probs, odds) == h + d + a;
  }

  /** The bets for a list of outcomes, one loop iteration per outcome. */
  function BetsOver(os: seq<Outcome>, probs: Dist, odds: Dist): seq<ValueBet>
    requires odds.Positive()
  {
    if os == [] then [] else BetsOver(os[..|os| - 1], probs, odds) + BetFor(os[|os| - 1], probs, odds)
  }

  /** `_identify_value_bets`: loops over the outcomes, appending a report for each value bet. */
  method IdentifyValueBets(probs: Dist, odds: Dist) returns (bets: seq<ValueBet>)
    requires odds.Positive()
    ensures bets == ValueBets(probs, odds)
  {
    var outcomes := [Home, Draw, Away];
    bets := [];
    var i := 0;
    while i < |outcomes|
      invariant 0 <= i <= |outcomes|
      invariant bets == BetsOver(outcomes[..i], probs, odds)
    {
      assert outcomes[..i + 1][..i] == outcomes[..i];
      bets := bets + BetFor(outcomes[i], probs, odds);
      i := i + 1;
    }
    assert outcomes[..3] == outcomes;
    BetsOverOutcomes(probs, odds);
  }

  datatype ValueDetection = NoValue | HighValue | MediumValue | LowValue

  function MaxEdge(bets: seq<ValueBet>): (m: real)
    requires |bets| > 0
    ensures forall b :: b in bets ==> b.edgePercentage <= m
    ensures exists b :: b in bets && b.edgePercentage == m
  {
    if |bets| == 1 then bets[0].edgePercentage
    else
      var rest := MaxEdge(bets[1..]);
      assert forall b :: b in bets ==> b == bets[0] || b in bets[1..];
      Max2(bets[0].edgePercentage, rest)
  }

  lemma MaxEdgeAboveTen(probs: Dist, odds: Dist)
    requires odds.Positive() && ValueBets(probs, odds) != []
    ensures MaxEdge(ValueBets(probs, odds)) > 10.0
  {
    var bets := ValueBets(probs, odds);
    var b :| b in bets && b.edgePercentage == MaxEdge(bets);
    ValueBetFacts(probs, odds, b);
  }

  /** `_detect_value_opportunity`: the tag of the largest edge; `LowValue` is never produced. */
  function DetectValueOpportunity(probs: Dist, odds: Dist): (r: ValueDetection)
    requires odds.Positive()
    ensures r == NoValue <==> ValueBets(probs, odds) == []
    ensures r == HighValue <==> exists b :: b in ValueBets(probs, odds) && b.edgePercentage > 20.0
    ensures r != LowValue
  {
    var bets := ValueBets(probs, odds);
    if bets == [] then NoValue
    else
      var maxEdge := MaxEdge(bets);
      MaxEdgeAboveTen(probs, odds);
      if maxEdge > 20.0 then HighValue
      else if maxEdge > 10.0 then MediumValue
      else LowValue
  }

  datatype StrategicAnalysis = StrategicAnalysis(
    innovationScore: int,
    marketPosition: MarketPosition,
    riskLevel: RiskLevel,
    executionConfidence: int,
    marketEfficiency: int,
    valueDetection: ValueDetection,
    lineMovementImpact: real,
    smartMoneyIndicator: bool)

  /** `_strategic_analysis_v2`. */
  function StrategicAnalysisOf(probs: Dist, sharp: SharpAnalysis): (a: StrategicAnalysis)
    requires sharp.odds.Positive()
    ensures probs.Max() >= 0.0 ==> 0 <= a.innovationScore <= 100
    ensures a.smartMoneyIndicator <==> sharp.sharpConfidence > 0.7
    ensures a.riskLevel == ClassifyRisk(CalculateRiskMetrics(probs, sharp).overallRiskScore)
    ensures a.valueDetection != LowValue
    ensures a.lineMovementImpact >= 0.0
  {
    var maxProb := probs.Max();
    StrategicAnalysis(
      Min2Int(100, Trunc(maxProb * 130.0)),
      DetermineMarketPosition(maxProb, sharp.sharpConfidence),
      CalculateRiskLevel(probs, sharp.lineMovement),
      Trunc(maxProb * sharp.sharpConfidence * 100.0),
      Trunc(sharp.sharpConfidence * 100.0),
      DetectValueOpportunity(probs, sharp.odds),
      Abs(sharp.lineMovement) * 100.0,
      sharp.sharpConfidence > 0.7)
  }

  function Min2Int(a: int, b: int): int { if a <= b then a else b }

  // -------------------------------------------------------------- predictor

  datatype Prediction = Prediction(
    prediction: Outcome,
    confidence: real,
    probabilities: Dist,
    kalshi: Dist,
    sharp: SharpAnalysis,
    rf: Dist,
    gb: Dist,
    lr: Dist,
    weights: Weights,
    analysis: StrategicAnalysis,
    risk: RiskMetrics,
    valueBets: seq<ValueBet>)

  predicate SameFirstSeven(f: seq<real>, g: seq<real>) {
    |f| >= 7 && |g| >= 7 && forall i :: 0 <= i < 7 ==> f[i] == g[i]
  }

  lemma RawMarketReadsSevenFeatures(f: seq<real>, g: seq<real>, tanh: real -> real)
    requires SameFirstSeven(f, g)
    ensures RawMarket(f, tanh) == RawMarket(g, tanh)
  {
    assert f[0] == g[0] && f[1] == g[1];
    assert f[3..5] == g[3..5] && f[5..7] == g[5..7];
    assert MarketDepth(f) == MarketDepth(g);
    assert NewsMomentum(f, tanh) == NewsMomentum(g, tanh);
  }

  /** The two market models read only the first seven features. */
  lemma MarketModelsReadSevenFeatures(f: seq<real>, g: seq<real>, m: Dist, tanh: real -> real)
    requires SameFirstSeven(f, g) && TanhRange(tanh)
    ensures MarketProbability(f, tanh) == MarketProbability(g, tanh)
    ensures SharpAdjusted(m, f, tanh) == SharpAdjusted(m, g, tanh)
    ensures SharpMoneyHome(f) == SharpMoneyHome(g) && SharpMoneyAway(f) == SharpMoneyAway(g)
    ensures LineMovement(f, tanh) == LineMovement(g, tanh)
  {
    RawMarketReadsSevenFeatures(f, g, tanh);
    assert f[0] == g[0] && f[1] == g[1] && f[3] == g[3] && f[4] == g[4] && f[5] == g[5] && f[6] == g[6];
    assert SharpMoneyHome(f) == SharpMoneyHome(g) && SharpMoneyAway(f) == SharpMoneyAway(g);
    assert Boost(f) == Boost(g);
    assert LineMovement(f, tanh) == LineMovement(g, tanh);
  }

  lemma ConfidenceReadsSevenFeatures(probs: Dist, f: seq<real>, g: seq<real>, sharp: SharpAnalysis, std: seq<real> -> real)
    requires |f| >= 7 && |g| >= 7 && f[..7] == g[..7]
    ensures MagajicoConfidence(probs, f, sharp, std) == MagajicoConfidence(probs, g, sharp, std)
  {
    assert ConfidenceBlend(probs, f, sharp, std) == ConfidenceBlend(probs, g, sharp, std);
  }

  class Predictor {
    const estimators: Estimators
    var weights: Option<Weights>

    /** Weights, when defined, are shares of one total. */
    predicate Valid()
      reads this
    {
      weights.Some? ==> weights.value.rf + weights.value.gb + weights.value.lr == 1.0
    }

    /** Training fits the estimators (abstract here) and then sets the weights. */
    constructor(estimators: Estimators, rfScore: real, gbScore: real, lrScore: real)
      ensures this.estimators == estimators
      ensures weights == EnsembleWeights(rfScore, gbScore, lrScore)
      ensures Valid()
    {
      this.estimators := estimators;
      new;
      TrainEnsemble(rfScore, gbScore, lrScore);
    }

    /** `_train_ensemble`: the weights from the mean cross-validation scores. */
    method TrainEnsemble(rfScore: real, gbScore: real, lrScore: real)
      modifies this
      ensures weights == EnsembleWeights(rfScore, gbScore, lrScore)
      ensures Valid()
    {
      weights := EnsembleWeights(rfScore, gbScore, lrScore);
    }

    /**
     * `_enhance_features`: the input, then the five signals, cut to twelve
     * entries. The source indexes entries 0, 2, 3 and 5, so six are needed.
     */
    static method EnhanceFeatures(base: seq<real>, d: Draws) returns (enhanced: seq<real>)
      requires |base| >= 6
      ensures enhanced == Enhanced(base, d)
      ensures |enhanced| == Min2Int(|base| + 5, 12)
      ensures forall i :: 0 <= i < |enhanced| && i < |base| ==> enhanced[i] == base[i]
      ensures forall k :: 0 <= k < 5 && |base| + k < 12 ==> enhanced[|base| + k] == Signals(base, d)[k]
    {
      enhanced := base;
      enhanced := enhanced + Signals(base, d);
      if |enhanced| > 12 {
        enhanced := enhanced[..12];
      }
    }

    /**
     * `predict`. Fewer than six features is the source's IndexError, six gives
     * eleven expanded features, which the scaler rejects.
     */
    method Predict(features: seq<real>, draws: Draws, tanh: real -> real, std: seq<real> -> real)
        returns (r: Result<Prediction, string>)
      requires Valid() && TanhRange(tanh) && StdRange(std) && ValidEstimators(estimators)
      ensures r.Ok? <==> |features| >= 7 && weights.Some?
      ensures r.Ok? ==> r.value.weights == weights.value
      ensures r.Ok? ==> r.value.rf.IsDistribution() && r.value.gb.IsDistribution() && r.value.lr.IsDistribution()
      ensures r.Ok? ==>
        var scaled := estimators.scaler(Enhanced(features, draws));
        r.value.rf == estimators.rf(scaled) && r.value.gb == estimators.gb(scaled) && r.value.lr == estimators.lr(scaled)
      ensures r.Ok? ==> r.value.kalshi == MarketProbability(features, tanh)
      ensures r.Ok? ==> r.value.sharp.sharpConfidence == Max2(SharpMoneyHome(features), SharpMoneyAway(features))
      ensures r.Ok? ==> r.value.sharp.lineMovement == LineMovement(features, tanh)
      ensures r.Ok? ==>
        (SharpAdjustedPositive(r.value.kalshi, features, tanh);
         r.value.sharp.probabilities == Normalize(SharpAdjusted(r.value.kalshi, features, tanh)))
      ensures r.Ok? ==> r.value.sharp.odds == MarginOdds(r.value.sharp.probabilities)
      ensures r.Ok? ==>
        r.value.probabilities == Fuse(Ensemble(r.value.weights, r.value.rf, r.value.gb, r.value.lr),
                                      r.value.kalshi, r.value.sharp.probabilities)
      ensures r.Ok? ==> r.value.probabilities.Total() == 1.0
      ensures r.Ok? && r.value.weights.rf >= 0.0 && r.value.weights.gb >= 0.0 && r.value.weights.lr >= 0.0
        ==> r.value.probabilities.Positive()
      ensures r.Ok? ==> r.value.prediction == Argmax(r.value.probabilities)
      ensures r.Ok? ==> r.value.confidence == MagajicoConfidence(r.value.probabilities, features, r.value.sharp, std)
      ensures r.Ok? ==> r.value.confidence <= 1.0
      ensures r.Ok? ==> r.value.analysis == StrategicAnalysisOf(r.value.probabilities, r.value.sharp)
      ensures r.Ok? ==> r.value.risk == CalculateRiskMetrics(r.value.probabilities, r.value.sharp)
      ensures r.Ok? ==> r.value.valueBets == ValueBets(r.value.probabilities, r.value.sharp.odds)
    {
      if |features| < 6 {
        return Err("list index out of range");
      }
      var enhanced := EnhanceFeatures(features, draws);
      if |enhanced| != 12 {
        return Err("X has 11 features, but StandardScaler is expecting 12 features");
      }
      if weights.None? {
        return Err("model weights are undefined: the cross-validation scores total zero");
      }
      assert enhanced[..7] == features[..7];
      assert SameFirstSeven(enhanced, features);
      var w := weights.value;
      var scaled := estimators.scaler(enhanced);
      var rf := estimators.rf(scaled);
      var gb := estimators.gb(scaled);
      var lr := estimators.lr(scaled);
      var ensemble := Ensemble(w, rf, gb, lr);
      EnsembleIsDistribution(w, rf, gb, lr);

      var kalshi := MarketProbability(enhanced, tanh);
      MarketModelsReadSevenFeatures(enhanced, features, kalshi, tanh);
      SharpAdjustedPositive(kalshi, enhanced, tanh);
      var pinnacle := CalculateSharpOdds(kalshi, enhanced, tanh);
      assert pinnacle.Ok?;
      var sharp := pinnacle.value;

      var fused := Fuse(ensemble, kalshi, sharp.probabilities);
      FusionIsDistribution(ensemble, kalshi, sharp.probabilities);
      var finalProbs := Normalize(fused);
      NormalizeOne(fused);

      var prediction := Argmax(finalProbs);
      var confidence := MagajicoConfidence(finalProbs, enhanced, sharp, std);
      ConfidenceReadsSevenFeatures(finalProbs, enhanced, features, sharp, std);
      var bets := IdentifyValueBets(finalProbs, sharp.odds);
      assert kalshi == MarketProbability(features, tanh);
      assert sharp.probabilities == Normalize(SharpAdjusted(kalshi, features, tanh));
      assert finalProbs == fused;
      assert w.rf >= 0.0 && w.gb >= 0.0 && w.lr >= 0.0 ==> finalProbs.Positive();
      r := Ok(Prediction(prediction, confidence, finalProbs, kalshi, sharp, rf, gb, lr, w,
                         StrategicAnalysisOf(finalProbs, sharp), CalculateRiskMetrics(finalProbs, sharp), bets));
    }
  }
}
