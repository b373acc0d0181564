// The prediction league panel's user statistics: win rate, tier, seasons
// played and winnings, derived from the user's predictions.

module PredictionLeague {
  import opened Numbers

  const SeasonLength := 20
  const PiPerCorrect := 10
  const RankDraws := 50
  /** The `limit` of the prediction request. */
  const PageLimit := 100

  datatype Tier = Bronze | Silver | Gold | Diamond | Master

  function Ordinal(t: Tier): nat {
    match t
    case Bronze => 0
    case Silver => 1
    case Gold => 2
    case Diamond => 3
    case Master => 4
  }

  datatype UserStats = UserStats(currentTier: Tier, seasonsPlayed: nat, bestRank: int, totalWinnings: nat, winRate: real)

  /** The panel's statistics before any answer. */
  const Initial := UserStats(Silver, 0, 0, 0, 0.0)

  /** `p.result === 'correct'`. */
  predicate IsCorrect(result: string) {
    result == "correct"
  }

  function CorrectCount(results: seq<string>): (n: nat)
    ensures n <= |results|
  {
    if results == [] then 0 else (if IsCorrect(results[0]) then 1 else 0) + CorrectCount(results[1..])
  }

  /** The percentage of correct predictions, 0 without predictions. */
  function WinRate(correct: nat, total: nat): (w: real)
    requires correct <= total
    ensures 0.0 <= w <= 100.0
    ensures total == 0 ==> w == 0.0
    ensures total > 0 ==> w * total as real == 100.0 * correct as real
  {
    if total > 0 then (correct as real / total as real) * 100.0 else 0.0
  }

  /** The tier thresholds, checked from the top. */
  function TierOf(winRate: real): (t: Tier)
    ensures t == Master <==> winRate >= 80.0
    ensures t == Diamond <==> 70.0 <= winRate < 80.0
    ensures t == Gold <==> 60.0 <= winRate < 70.0
    ensures t == Silver <==> 50.0 <= winRate < 60.0
    ensures t == Bronze <==> winRate < 50.0
  {
    if winRate >= 80.0 then Master
    else if winRate >= 70.0 then Diamond
    else if winRate >= 60.0 then Gold
    else if winRate >= 50.0 then Silver
    else Bronze
  }

  /** A higher win rate never gives a lower tier. */
  lemma TierMonotone(a: real, b: real)
    requires a <= b
    ensures Ordinal(TierOf(a)) <= Ordinal(TierOf(b))
  {
  }

  /** `Math.floor(total / 20) || 1`. */
  function Seasons(total: nat): (s: nat)
    ensures s >= 1
    ensures total >= SeasonLength ==> s == total / SeasonLength
    ensures total < SeasonLength ==> s == 1
  {
    if total / SeasonLength == 0 then 1 else total / SeasonLength
  }

  /** `Number(x.toFixed(1))` on a non-negative number: the nearest tenth, a
      half rounding up. */
  function OneDecimal(x: real): (r: real)
    requires x >= 0.0
    ensures r - 0.05 <= x < r + 0.05
  {
    JsRound(x * 10.0) as real / 10.0
  }

  /** The statistics of `fetchLeagueData`; `draw` is `Math.random()`. */
  function Stats(results: seq<string>, draw: real): (s: UserStats)
    requires 0.0 <= draw < 1.0
    ensures s.currentTier == TierOf(WinRate(CorrectCount(results), |results|))
    ensures s.seasonsPlayed == Seasons(|results|)
    ensures 1 <= s.bestRank < RankDraws
    ensures s.totalWinnings == PiPerCorrect * CorrectCount(results)
    ensures 0.0 <= s.winRate <= 100.0
    ensures s.winRate == OneDecimal(WinRate(CorrectCount(results), |results|))
    ensures s.winRate - 0.05 <= WinRate(CorrectCount(results), |results|) < s.winRate + 0.05
    ensures s.bestRank == if (draw * RankDraws as real).Floor > 1 then (draw * RankDraws as real).Floor else 1
  {
    var correct := CorrectCount(results);
    var rate := WinRate(correct, |results|);
    var rank := (draw * RankDraws as real).Floor;
    OneDecimalBounds(rate);
    UserStats(TierOf(rate), Seasons(|results|), if rank > 1 then rank else 1, PiPerCorrect * correct, OneDecimal(rate))
  }

  /** A rate of fewer than 200 predictions is on the same side of every
      tier threshold as its rounded form. */
  lemma {:induction false} SameSideOfThreshold(c: nat, t: nat, k: nat)
    requires 0 < t < 200 && c <= t
    ensures OneDecimal(WinRate(c, t)) >= 10.0 * k as real <==> WinRate(c, t) >= 10.0 * k as real
  {
    var x := WinRate(c, t);
    var b := 10.0 * k as real;
    if x >= b {
      JsRoundMonotone(b * 10.0, x * 10.0);
      assert b * 10.0 == (100 * k) as real;
      JsRoundInt(100 * k);
    } else {
      NoRateJustBelowThreshold(c, t, k, x);
    }
  }

  /** Below 200 predictions a rate under a multiple of ten is at least 0.05 under it. */
  lemma NoRateJustBelowThreshold(c: nat, t: nat, k: nat, x: real)
    requires 0 < t < 200 && x * t as real == 100.0 * c as real
    requires x < 10.0 * k as real
    ensures x < 10.0 * k as real - 0.05
  {
    var tr := t as real;
    var b := 10.0 * k as real;
    assert x * tr < b * tr;
    var d := 10 * k * t - 100 * c;
    assert d as real == b * tr - x * tr;
    assert d == 10 * (k * t - 10 * c);
    assert k * t - 10 * c >= 1;
    assert d as real >= 10.0 > 0.05 * tr;
    assert (b - 0.05) * tr > x * tr;
  }

  /** On the page, whose history holds at most `PageLimit` predictions, the
      tier always matches the rounded win rate it shows. */
  lemma PageTierAgreesWithShownRate(results: seq<string>, draw: real)
    requires 0.0 <= draw < 1.0 && |results| <= PageLimit
    ensures Stats(results, draw).currentTier == TierOf(Stats(results, draw).winRate)
  {
    if |results| > 0 {
      SameSideOfThreshold(CorrectCount(results), |results|, 5);
      SameSideOfThreshold(CorrectCount(results), |results|, 6);
      SameSideOfThreshold(CorrectCount(results), |results|, 7);
      SameSideOfThreshold(CorrectCount(results), |results|, 8);
    } else {
      JsRoundInt(0);
    }
  }

  lemma OneDecimalBounds(x: real)
    requires 0.0 <= x <= 100.0
    ensures 0.0 <= OneDecimal(x) <= 100.0
  {
    JsRoundMonotone(x * 10.0, 1000.0);
    JsRoundInt(1000);
    JsRoundMonotone(0.0, x * 10.0);
    JsRoundInt(0);
  }

  /** The tier follows the unrounded rate: 1999 correct out of 2500 is a
      win rate shown as 80 but a Diamond tier, not Master. The page fetches at
      most `PageLimit` predictions, and below 200 the two always agree (see
      `PageTierAgreesWithShownRate`), so this takes a longer history than the
      page asks for. */
  lemma ShownRateMayDisagreeWithTier(results: seq<string>, draw: real)
    requires 0.0 <= draw < 1.0
    requires |results| == 2500 && CorrectCount(results) == 1999
    ensures Stats(results, draw).currentTier == Diamond
    ensures Stats(results, draw).winRate == 80.0
  {
    assert WinRate(1999, 2500) == 79.96;
    assert 79.96 * 10.0 == 799.6;
    assert JsRound(799.6) == 800;
  }
}
