// The two market heuristics of the prediction pipeline (the Kalshi-style
// market model and the Pinnacle-style sharp-odds model), over real numbers.
// `tanh` is a parameter: any function whose values lie strictly in (-1, 1).

module MarketModels {
  import opened Wrappers

  datatype Outcome = Home | Draw | Away

  /** A value per outcome: the `home_win`/`draw`/`away_win` dicts and 3-element arrays. */
  datatype Dist = Dist(home: real, draw: real, away: real)
  {
    function At(o: Outcome): real {
      match o
      case Home => home
      case Draw => draw
      case Away => away
    }

    function Total(): real { home + draw + away }

    predicate Positive() { home > 0.0 && draw > 0.0 && away > 0.0 }

    predicate NonNegative() { home >= 0.0 && draw >= 0.0 && away >= 0.0 }

    /** Non-negative and summing to one. */
    predicate IsDistribution() { NonNegative() && Total() == 1.0 }

    function Scale(k: real): Dist { Dist(home * k, draw * k, away * k) }

    function Plus(o: Dist): Dist { Dist(home + o.home, draw + o.draw, away + o.away) }

    function Max(): real {
      if home >= draw && home >= away then home else if draw >= away then draw else away
    }

    function Min(): real {
      if home <= draw && home <= away then home else if draw <= away then draw else away
    }

    function AsSeq(): seq<real> { [home, draw, away] }
  }

  ghost predicate TanhRange(tanh: real -> real) {
    forall x :: -1.0 < tanh(x) < 1.0
  }

  /** `{k: v / total}`: divides each entry by the sum of the entries. */
  function Normalize(d: Dist): (r: Dist)
    requires d.Total() != 0.0
    ensures r.Total() == 1.0
    ensures d.Total() > 0.0 && d.Positive() ==> r.Positive()
    ensures r.Scale(d.Total()) == d
  {
    var t := d.Total();
    DivSum(d.home, d.draw, d.away, t);
    Dist(d.home / t, d.draw / t, d.away / t)
  }

  lemma DivSum(a: real, b: real, c: real, t: real)
    requires t != 0.0 && a + b + c == t
    ensures a / t + b / t + c / t == 1.0
  {
    assert a / t + b / t + c / t == (a + b + c) / t;
  }

  /** The decimal odd of a margin-adjusted probability: `1/v if v > 0 else 100`. */
  function DecimalOdd(v: real): (r: real)
    ensures r > 0.0
    ensures v > 0.0 ==> r * v == 1.0
    ensures v <= 0.0 ==> r == 100.0
  {
    if v > 0.0 then 1.0 / v else 100.0
  }

  lemma DecimalOddAboveMargin(p: real)
    requires 0.0 < p < 1.0
    ensures DecimalOdd(p * 0.98) > 1.0 / 0.98
  {
    var v := p * 0.98;
    assert v < 0.98;
    var r := DecimalOdd(v);
    assert r * v == 1.0;
    assert r * 0.98 > r * v;
  }

  function Min2(a: real, b: real): real { if a <= b then a else b }

  function Max2(a: real, b: real): real { if a >= b then a else b }

  function Abs(x: real): real { if x < 0.0 then -x else x }

  /** `max(lo, min(hi, x))`. */
  function Clamp(x: real, lo: real, hi: real): (r: real)
    requires lo <= hi
    ensures lo <= r <= hi
    ensures lo <= x <= hi ==> r == x
  {
    Max2(lo, Min2(hi, x))
  }

  /** `np.mean` of a non-empty slice. */
  function Mean(s: seq<real>): real
    requires |s| > 0
  {
    SeqSum(s) / (|s| as real)
  }

  function SeqSum(s: seq<real>): real {
    if s == [] then 0.0 else s[0] + SeqSum(s[1..])
  }

  // ---------------------------------------------------------------- Kalshi

  function MarketDepth(f: seq<real>): real
    requires |f| >= 2
  {
    Min2(1.0, f[0] * 0.8 + f[1] * 0.6)
  }

  /** `_simulate_news_sentiment`: tanh of form momentum plus 0.05 of the goal-rate difference. */
  function NewsMomentum(f: seq<real>, tanh: real -> real): real
    requires |f| >= 7
  {
    tanh((f[0] - f[1]) * 0.1 + (Mean(f[3..5]) - Mean(f[5..7])) * 0.05)
  }

  /** The clamped market probabilities before normalisation. */
  function RawMarket(f: seq<real>, tanh: real -> real): (r: Dist)
    requires |f| >= 7
    ensures 0.1 <= r.home <= 0.8 && 0.15 <= r.draw <= 0.4 && 0.1 <= r.away <= 0.8
  {
    var depth := MarketDepth(f);
    var news := NewsMomentum(f, tanh);
    Dist(Clamp(f[0] * 0.4 + depth * 0.3 + news * 0.1, 0.1, 0.8),
         Clamp(0.33 - Abs(f[0] - f[1]) * 0.2, 0.15, 0.4),
         Clamp(f[1] * 0.4 + (1.0 - depth) * 0.3 - news * 0.05, 0.1, 0.8))
  }

  /** `calculate_market_probability`: the raw market values divided by their total. */
  function MarketProbability(f: seq<real>, tanh: real -> real): (r: Dist)
    requires |f| >= 7
    ensures r.Positive() && r.Total() == 1.0
    ensures r.home >= 0.05 && r.draw >= 0.075 && r.away >= 0.05
    ensures r.Scale(RawMarket(f, tanh).Total()) == RawMarket(f, tanh)
  {
    var raw := RawMarket(f, tanh);
    var r := Normalize(raw);
    LowerBoundOfShare(raw.home, raw.Total(), 0.1);
    LowerBoundOfShare(raw.draw, raw.Total(), 0.15);
    LowerBoundOfShare(raw.away, raw.Total(), 0.1);
    r
  }

  /** A value of at least lo in a total of at most 2 is a share of at least lo / 2. */
  lemma LowerBoundOfShare(v: real, t: real, lo: real)
    requires 0.0 < t <= 2.0 && lo <= v && 0.0 <= lo
    ensures v / t >= lo / 2.0
  {
    assert v / t >= lo / t;
    assert lo / t >= lo / 2.0 by {
      assert lo * 2.0 >= lo * t;
    }
  }

  // -------------------------------------------------------------- Pinnacle

  function SharpMoneyHome(f: seq<real>): (r: real)
    requires |f| >= 7
    ensures r <= 1.0
  {
    Min2(1.0, f[0] * 0.6 + (f[3] / Max2(f[4], 1.0)) * 0.2)
  }

  function SharpMoneyAway(f: seq<real>): (r: real)
    requires |f| >= 7
    ensures r <= 1.0
  {
    Min2(1.0, f[1] * 0.6 + (f[5] / Max2(f[6], 1.0)) * 0.2)
  }

  /** `_simulate_line_movement`. */
  function LineMovement(f: seq<real>, tanh: real -> real): (r: real)
    requires |f| >= 7 && TanhRange(tanh)
    ensures -1.0 < r < 1.0
  {
    tanh(((f[0] - f[1]) + ((f[3] - f[4]) - (f[5] - f[6])) * 0.1) * 0.5)
  }

  /** Which sharp-money adjustment applies: the `if`/`elif` chooses at most one. */
  datatype SharpBoost = HomeBoost | AwayBoost | NoBoost

  function Boost(f: seq<real>): (b: SharpBoost)
    requires |f| >= 7
    ensures b == HomeBoost <==> SharpMoneyHome(f) > 0.6
    ensures b == AwayBoost <==> SharpMoneyHome(f) <= 0.6 && SharpMoneyAway(f) > 0.6
  {
    if SharpMoneyHome(f) > 0.6 then HomeBoost
    else if SharpMoneyAway(f) > 0.6 then AwayBoost
    else NoBoost
  }

  /** The `sharp_probs` dictionary after the boost and the line-movement shift, before normalisation. */
  function SharpAdjusted(m: Dist, f: seq<real>, tanh: real -> real): Dist
    requires |f| >= 7 && TanhRange(tanh)
  {
    var lm := LineMovement(f, tanh);
    var b := Boost(f);
    var h := if b == HomeBoost then m.home * 1.05 else if b == AwayBoost then m.home * 0.95 else m.home;
    var a := if b == HomeBoost then m.away * 0.95 else if b == AwayBoost then m.away * 1.05 else m.away;
    Dist(h + lm * 0.02, m.draw, a - lm * 0.02)
  }

  /** The draw entry is never adjusted, and the home and away shifts cancel in the total. */
  lemma SharpAdjustmentEffect(m: Dist, f: seq<real>, tanh: real -> real)
    requires |f| >= 7 && TanhRange(tanh)
    ensures SharpAdjusted(m, f, tanh).draw == m.draw
    ensures var t := SharpAdjusted(m, f, tanh).Total();
      match Boost(f)
      case HomeBoost => t == m.Total() + 0.05 * m.home - 0.05 * m.away
      case AwayBoost => t == m.Total() - 0.05 * m.home + 0.05 * m.away
      case NoBoost => t == m.Total()
  {
  }

  /** On a market distribution every adjusted entry stays positive, so normalising never divides by zero. */
  lemma SharpAdjustedPositive(m: Dist, f: seq<real>, tanh: real -> real)
    requires |f| >= 7 && TanhRange(tanh)
    requires m.home >= 0.05 && m.draw > 0.0 && m.away >= 0.05
    ensures SharpAdjusted(m, f, tanh).Positive()
    ensures SharpAdjusted(m, f, tanh).Total() > 0.0
  {
    var lm := LineMovement(f, tanh);
    assert -0.02 < lm * 0.02 < 0.02;
  }

  datatype SharpAnalysis = SharpAnalysis(
    probabilities: Dist,
    odds: Dist,
    sharpConfidence: real,
    lineMovement: real)

  /** The odds of a normalised value after the 2% margin. */
  function MarginOdds(p: Dist): (r: Dist)
    ensures r.Positive()
  {
    Dist(DecimalOdd(p.home * 0.98), DecimalOdd(p.draw * 0.98), DecimalOdd(p.away * 0.98))
  }

  /**
   * `calculate_sharp_odds`. The dictionary copy is updated entry by entry as
   * in the source; a zero total is Python's ZeroDivisionError.
   */
  method CalculateSharpOdds(market: Dist, f: seq<real>, tanh: real -> real)
      returns (r: Result<SharpAnalysis, string>)
    requires |f| >= 7 && TanhRange(tanh)
    ensures r.Ok? <==> SharpAdjusted(market, f, tanh).Total() != 0.0
    ensures r.Ok? ==> r.value.probabilities == Normalize(SharpAdjusted(market, f, tanh))
    ensures r.Ok? ==> r.value.probabilities.Total() == 1.0
    ensures r.Ok? ==> r.value.odds == MarginOdds(r.value.probabilities)
    ensures r.Ok? ==> r.value.sharpConfidence == Max2(SharpMoneyHome(f), SharpMoneyAway(f))
    ensures r.Ok? ==> r.value.sharpConfidence <= 1.0
    ensures r.Ok? ==> r.value.lineMovement == LineMovement(f, tanh)
    ensures r.Ok? ==> -1.0 < r.value.lineMovement < 1.0
  {
    var home, draw, away := market.home, market.draw, market.away;
    var sharpHome := SharpMoneyHome(f);
    var sharpAway := SharpMoneyAway(f);
    if sharpHome > 0.6 {
      home := home * 1.05;
      away := away * 0.95;
    } else if sharpAway > 0.6 {
      away := away * 1.05;
      home := home * 0.95;
    }
    var lm := LineMovement(f, tanh);
    home := home + lm * 0.02;
    away := away - lm * 0.02;
    var adjusted := Dist(home, draw, away);
    assert adjusted == SharpAdjusted(market, f, tanh);
    var total := home + draw + away;
    if total == 0.0 {
      return Err("division by zero");
    }
    var normalized := Dist(home / total, draw / total, away / total);
    var odds := MarginOdds(normalized);
    r := Ok(SharpAnalysis(normalized, odds, Max2(sharpHome, sharpAway), lm));
  }

  /** With all three normalised probabilities positive, every odd exceeds 1/0.98. */
  lemma {:induction false} SharpOddsAboveMargin(p: Dist)
    requires p.Positive() && p.Total() == 1.0
    ensures MarginOdds(p).home > 1.0 / 0.98
    ensures MarginOdds(p).draw > 1.0 / 0.98
    ensures MarginOdds(p).away > 1.0 / 0.98
  {
    DecimalOddAboveMargin(p.home);
    DecimalOddAboveMargin(p.draw);
    DecimalOddAboveMargin(p.away);
  }

  /** `np.argmax`: the first index holding the maximum. */
  function Argmax(d: Dist): (o: Outcome)
    ensures d.At(o) == d.Max()
    ensures d.At(o) >= d.home && d.At(o) >= d.draw && d.At(o) >= d.away
    ensures o == Draw ==> d.home < d.draw
    ensures o == Away ==> d.home < d.away && d.draw < d.away
  {
    if d.home >= d.draw && d.home >= d.away then Home
    else if d.draw >= d.away then Draw
    else Away
  }
}
