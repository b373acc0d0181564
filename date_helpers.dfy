// Date helpers of the shared package: how long until a match starts, and
// the status text of a match.

module DateHelpers {
  import opened Wrappers
  import opened Strings

  const MinuteMs := 60000
  const LiveOrFinished := "Live or Finished"

  /** What `formatMatchTime` shows: a fixed text, or the match day in the
      user's locale (`toLocaleDateString`), which is not modelled beyond the
      instant it formats. */
  datatype Shown = Text(text: string) | LocaleDate(instant: int)

  /** `formatMatchTime` for a match at `matchMs`, at time `nowMs` (integral
      milliseconds); `/` on integers rounds down like `Math.floor`. */
  function FormatMatchTime(matchMs: int, nowMs: int): (r: Shown)
    ensures r == Text(LiveOrFinished) <==> matchMs < nowMs
    ensures 0 <= matchMs - nowMs < 60 * MinuteMs ==>
      r == Text(NatToString((matchMs - nowMs) / MinuteMs) + "m")
    ensures 60 * MinuteMs <= matchMs - nowMs < 1440 * MinuteMs ==>
      r == Text(NatToString((matchMs - nowMs) / (60 * MinuteMs)) + "h")
    ensures matchMs - nowMs >= 1440 * MinuteMs ==> r == LocaleDate(matchMs)
  {
    var diffMins := (matchMs - nowMs) / MinuteMs;
    MinuteThresholds(matchMs - nowMs);
    if diffMins < 0 then Text(LiveOrFinished)
    else if diffMins < 60 then
      var t := NatToString(diffMins) + "m";
      assert t[|t| - 1] != LiveOrFinished[|LiveOrFinished| - 1];
      Text(t)
    else if diffMins < 1440 then
      var t := NatToString(diffMins / 60) + "h";
      assert t[|t| - 1] != LiveOrFinished[|LiveOrFinished| - 1];
      Text(t)
    else LocaleDate(matchMs)
  }

  /** The thresholds on whole minutes are thresholds on the milliseconds. */
  lemma MinuteThresholds(d: int)
    ensures d / MinuteMs < 0 <==> d < 0
    ensures d / MinuteMs < 60 <==> d < 60 * MinuteMs
    ensures d / MinuteMs < 1440 <==> d < 1440 * MinuteMs
    ensures d >= 0 ==> (d / MinuteMs) / 60 == d / (60 * MinuteMs)
  {
    var q := d / MinuteMs;
    assert q * MinuteMs <= d < q * MinuteMs + MinuteMs;
    if d >= 0 {
      HoursFromMinutes(d);
    }
  }

  /** The minutes and the hours shown are whole ones still to come, rounded down. */
  lemma ShownCountsRoundDown(matchMs: int, nowMs: int)
    requires 0 <= matchMs - nowMs < 1440 * MinuteMs
    ensures var n := (matchMs - nowMs) / MinuteMs; n * MinuteMs <= matchMs - nowMs < (n + 1) * MinuteMs
    ensures var h := (matchMs - nowMs) / (60 * MinuteMs); h < 24 && h * 60 * MinuteMs <= matchMs - nowMs
  {
  }

  /** The hour count is the minute count divided by 60, as the code computes it. */
  lemma HoursFromMinutes(d: int)
    requires d >= 0
    ensures (d / MinuteMs) / 60 == d / (60 * MinuteMs)
  {
    var q := d / MinuteMs;
    var h := q / 60;
    assert q * MinuteMs <= d < q * MinuteMs + MinuteMs;
    assert h * 60 <= q < h * 60 + 60;
    assert h * (60 * MinuteMs) <= d < h * (60 * MinuteMs) + 60 * MinuteMs;
  }

  /** `isMatchLive`. */
  predicate IsMatchLive(status: string) {
    status == "live"
  }

  /** `charAt(0).toUpperCase() + slice(1)`. */
  function Capitalized(s: string): (r: string)
    ensures |r| == |s|
    ensures s != [] ==> r[0] == UpperChar(s[0]) && r[1..] == s[1..]
  {
    if s == [] then [] else [UpperChar(s[0])] + s[1..]
  }

  /** `getMatchStatus`; `liveMinute` is `None` when absent. */
  function MatchStatus(status: string, liveMinute: Option<int>): (r: string)
    ensures IsMatchLive(status) && liveMinute.Some? && liveMinute.value != 0 ==>
      r == IntToString(liveMinute.value) + "'"
    ensures !(IsMatchLive(status) && liveMinute.Some? && liveMinute.value != 0) ==> r == Capitalized(status)
  {
    if IsMatchLive(status) && liveMinute.Some? && liveMinute.value != 0
    then IntToString(liveMinute.value) + "'"
    else Capitalized(status)
  }

  /** A live match at minute 0 shows its status, capitalised. */
  lemma MinuteZeroFallsThrough(status: string)
    requires status == "live"
    ensures MatchStatus(status, Some(0)) == "Live"
    ensures MatchStatus(status, None) == "Live"
  {
    assert Capitalized(status) == "Live";
  }
}
