// The daily prediction limit widget: how many of the user's predictions
// were made today (local calendar day), and the progress, remaining count
// and limit flags derived from it.

module DailyPredictionLimit {
  import opened Wrappers
  import Seqs

  const DefaultLimit := 10
  const DayMs := 86400000
  const NearLimitPercent := 80.0

  /** `createdAt` in milliseconds since the epoch; `None` when it does not
      parse as a date. */
  datatype Prediction = Prediction(createdAt: Option<int>)

  /** The local calendar day of an instant, for a zone `offsetMs` ahead of UTC
      (`setHours(0, 0, 0, 0)` keeps exactly this). */
  function LocalDay(t: int, offsetMs: int): int {
    (t + offsetMs) / DayMs
  }

  predicate MadeOn(p: Prediction, day: int, offsetMs: int) {
    p.createdAt.Some? && LocalDay(p.createdAt.value, offsetMs) == day
  }

  /** `todayPredictions.length`. */
  function TodayCount(predictions: seq<Prediction>, now: int, offsetMs: int): (n: nat)
    ensures n <= |predictions|
    ensures n == Seqs.Count(predictions, (p: Prediction) => MadeOn(p, LocalDay(now, offsetMs), offsetMs))
  {
    var today := (p: Prediction) => MadeOn(p, LocalDay(now, offsetMs), offsetMs);
    Seqs.CountIsFilterLength(predictions, today);
    |Seqs.Filter(predictions, today)|
  }

  /** Two instants are on the same local day iff their local midnights agree. */
  lemma SameDayWithinADay(t: int, now: int, offsetMs: int)
    requires LocalDay(t, offsetMs) == LocalDay(now, offsetMs)
    ensures -DayMs < t - now < DayMs
  {
  }

  /** A prediction made on another day, or without a date, changes nothing. */
  lemma OtherDaysIgnored(predictions: seq<Prediction>, p: Prediction, now: int, offsetMs: int)
    requires !MadeOn(p, LocalDay(now, offsetMs), offsetMs)
    ensures TodayCount([p] + predictions, now, offsetMs) == TodayCount(predictions, now, offsetMs)
  {
    assert ([p] + predictions)[1..] == predictions;
  }

  /** `Math.max(0, dailyLimit - todayCount)`. */
  function Remaining(count: int, limit: int): (r: int)
    ensures r >= 0
    ensures r == 0 <==> count >= limit
    ensures count < limit ==> count + r == limit
  {
    if limit - count > 0 then limit - count else 0
  }

  predicate AtLimit(count: int, limit: int) {
    count >= limit
  }

  /** `(todayCount / dailyLimit) * 100`, for a non-zero limit. */
  function Percentage(count: int, limit: int): real
    requires limit != 0
  {
    (count as real / limit as real) * 100.0
  }

  /** `percentage >= 80`: with a zero limit the percentage is `Infinity` when
      something was predicted (near the limit) and `NaN` otherwise (not). */
  function NearLimit(count: int, limit: int): (b: bool)
    ensures limit > 0 ==> (b <==> 100.0 * count as real >= NearLimitPercent * limit as real)
    ensures limit == 0 ==> (b <==> count > 0)
  {
    if limit == 0 then count > 0 else Percentage(count, limit) >= NearLimitPercent
  }

  /** `Math.min(percentage, 100)`, the width of the bar; `None` stands for NaN. */
  function BarWidth(count: int, limit: int): (w: Option<real>)
    ensures limit > 0 && count >= 0 ==> w.Some? && 0.0 <= w.value <= 100.0
    ensures limit > 0 && count >= limit ==> w == Some(100.0)
    ensures limit == 0 ==> (w.None? <==> count <= 0)
    ensures limit > 0 && 0 <= count < limit ==> w == Some(Percentage(count, limit))
  {
    if limit == 0 then (if count > 0 then Some(100.0) else None)
    else
      var p := Percentage(count, limit);
      var w := Some(if p < 100.0 then p else 100.0);
      if limit > 0 && count >= 0 then PercentageBounds(count, limit); w else w
  }

  /** The percentage of a positive limit reaches 100 exactly at the limit. */
  lemma PercentageBounds(count: int, limit: int)
    requires limit > 0 && count >= 0
    ensures 0.0 <= Percentage(count, limit)
    ensures Percentage(count, limit) >= 100.0 <==> count >= limit
  {
    var q := count as real / limit as real;
    assert q * limit as real == count as real;
    if count >= limit {
      assert q >= 1.0;
    } else {
      assert q < 1.0;
    }
  }

  /** Reaching the limit is also being near it, and leaves nothing remaining. */
  lemma AtLimitIsNearLimit(count: int, limit: int)
    requires limit > 0 && AtLimit(count, limit)
    ensures NearLimit(count, limit) && Remaining(count, limit) == 0
  {
  }
}
