// The development-only error analytics panel: uncaught errors are counted
// by type, and a system health percentage falls by five points for every
// unresolved error.

module ErrorAnalytics {
  import opened Wrappers

  const Unknown := "Unknown"
  const ErrorPenalty := 5

  /** One error type; `lastOccurred` is the instant of its latest error. */
  datatype ErrorStat = ErrorStat(errorType: string, count: nat, lastOccurred: int, resolved: nat)

  /** `event.error?.name || 'Unknown'`; `None` is an event without an error
      or an error without a name. */
  function ErrorTypeOf(name: Option<string>): (t: string)
    ensures t != ""
    ensures name.Some? && name.value != "" ==> t == name.value
  {
    if name.Some? && name.value != "" then name.value else Unknown
  }

  predicate UniqueTypes(stats: seq<ErrorStat>) {
    forall i, j :: 0 <= i < j < |stats| ==> stats[i].errorType != stats[j].errorType
  }

  predicate NothingResolved(stats: seq<ErrorStat>) {
    forall i :: 0 <= i < |stats| ==> stats[i].resolved == 0
  }

  predicate HasType(stats: seq<ErrorStat>, t: string) {
    exists i :: 0 <= i < |stats| && stats[i].errorType == t
  }

  /** `prev.map(...)`: the entries of type `t` count one more error. */
  function Bumped(stats: seq<ErrorStat>, t: string, now: int): (r: seq<ErrorStat>)
    ensures |r| == |stats|
    ensures forall i :: 0 <= i < |stats| ==>
      r[i] == if stats[i].errorType == t then stats[i].(count := stats[i].count + 1, lastOccurred := now) else stats[i]
  {
    seq(|stats|, i requires 0 <= i < |stats| =>
      if stats[i].errorType == t then stats[i].(count := stats[i].count + 1, lastOccurred := now) else stats[i])
  }

  /** The state update of `handleError` for an error of type `t` at `now`. */
  function Record(stats: seq<ErrorStat>, t: string, now: int): (r: seq<ErrorStat>)
    ensures HasType(stats, t) ==> r == Bumped(stats, t, now)
    ensures !HasType(stats, t) ==> r == stats + [ErrorStat(t, 1, now, 0)]
  {
    if HasType(stats, t) then Bumped(stats, t, now) else stats + [ErrorStat(t, 1, now, 0)]
  }

  /** `stats.reduce((sum, s) => sum + s.count, 0)`. */
  function TotalErrors(stats: seq<ErrorStat>): nat {
    if stats == [] then 0 else TotalErrors(stats[..|stats| - 1]) + stats[|stats| - 1].count
  }

  function TotalResolved(stats: seq<ErrorStat>): nat {
    if stats == [] then 0 else TotalResolved(stats[..|stats| - 1]) + stats[|stats| - 1].resolved
  }

  /** The health percentage. */
  function Health(stats: seq<ErrorStat>): (h: int)
    ensures TotalErrors(stats) == 0 ==> h == 100
    ensures TotalErrors(stats) > 0 ==> h == Max0(100 - (TotalErrors(stats) - TotalResolved(stats)) * ErrorPenalty)
  {
    var errors := TotalErrors(stats);
    var resolved := TotalResolved(stats);
    if errors > 0 then Max0(100 - (errors - resolved) * ErrorPenalty) else 100
  }

  function Max0(x: int): (r: int)
    ensures r >= 0 && r >= x && (r == 0 || r == x)
  {
    if x > 0 then x else 0
  }

  /** With no more errors resolved than recorded the health is a percentage. */
  lemma HealthIsPercentage(stats: seq<ErrorStat>)
    requires TotalResolved(stats) <= TotalErrors(stats)
    ensures 0 <= Health(stats) <= 100
  {
  }

  /** Recording an error keeps the types unique, adds one error and resolves
      nothing. */
  lemma {:induction false} RecordCounts(stats: seq<ErrorStat>, t: string, now: int)
    requires UniqueTypes(stats)
    ensures UniqueTypes(Record(stats, t, now))
    ensures TotalErrors(Record(stats, t, now)) == TotalErrors(stats) + 1
    ensures TotalResolved(Record(stats, t, now)) == TotalResolved(stats)
    ensures NothingResolved(stats) ==> NothingResolved(Record(stats, t, now))
    ensures HasType(Record(stats, t, now), t)
  {
    if HasType(stats, t) {
      var k :| 0 <= k < |stats| && stats[k].errorType == t;
      BumpedTotals(stats, t, now, k);
      assert Record(stats, t, now)[k].errorType == t;
    } else {
      var r := stats + [ErrorStat(t, 1, now, 0)];
      assert r[..|r| - 1] == stats;
      assert r[|r| - 1].errorType == t;
    }
  }

  /** Bumping the one entry of a type adds one error to the totals. */
  lemma {:induction false} BumpedTotals(stats: seq<ErrorStat>, t: string, now: int, k: nat)
    requires UniqueTypes(stats) && k < |stats| && stats[k].errorType == t
    ensures TotalErrors(Bumped(stats, t, now)) == TotalErrors(stats) + 1
    ensures TotalResolved(Bumped(stats, t, now)) == TotalResolved(stats)
  {
    var n := |stats|;
    var b := Bumped(stats, t, now);
    var init := stats[..n - 1];
    assert UniqueTypes(init);
    assert b[..n - 1] == Bumped(init, t, now);
    if k == n - 1 {
      UntouchedTotals(init, t, now);
    } else {
      BumpedTotals(init, t, now, k);
      assert stats[n - 1].errorType != t;
    }
  }

  /** Bumping a type that is not there changes nothing. */
  lemma {:induction false} UntouchedTotals(stats: seq<ErrorStat>, t: string, now: int)
    requires forall i :: 0 <= i < |stats| ==> stats[i].errorType != t
    ensures Bumped(stats, t, now) == stats
  {
  }

  /** The errors recorded one after another, from the types given. */
  function RecordAll(stats: seq<ErrorStat>, types: seq<string>, now: int): seq<ErrorStat>
  {
    if types == [] then stats else Record(RecordAll(stats, types[..|types| - 1], now), types[|types| - 1], now)
  }

  /** Since nothing ever resolves an error, after `n` errors the health is
      `max(0, 100 - 5n)`: from the twentieth error on the health shows 0%. */
  lemma {:induction false} HealthAfterErrors(types: seq<string>, now: int)
    ensures UniqueTypes(RecordAll([], types, now)) && NothingResolved(RecordAll([], types, now))
    ensures TotalErrors(RecordAll([], types, now)) == |types|
    ensures Health(RecordAll([], types, now)) == Max0(100 - ErrorPenalty * |types|)
  {
    if types != [] {
      HealthAfterErrors(types[..|types| - 1], now);
      RecordCounts(RecordAll([], types[..|types| - 1], now), types[|types| - 1], now);
      NoResolvedTotal(RecordAll([], types, now));
    }
  }

  lemma {:induction false} NoResolvedTotal(stats: seq<ErrorStat>)
    requires NothingResolved(stats)
    ensures TotalResolved(stats) == 0
  {
    if stats != [] {
      NoResolvedTotal(stats[..|stats| - 1]);
    }
  }

  /** The panel renders only in development and once an error is recorded. */
  predicate Visible(development: bool, stats: seq<ErrorStat>) {
    development && stats != []
  }

  datatype Dot = Green | Yellow | Red

  /** The status dot: green above 80, yellow above 50, red otherwise. */
  function HealthDot(health: int): (d: Dot)
    ensures d == Green <==> health > 80
    ensures d == Red <==> health <= 50
  {
    if health > 80 then Green else if health > 50 then Yellow else Red
  }

  /** Up to three errors the dot stays green; from ten on it is red. */
  lemma DotsAfterErrors(types: seq<string>, now: int)
    ensures |types| <= 3 ==> HealthDot(Health(RecordAll([], types, now))) == Green
    ensures |types| >= 10 ==> HealthDot(Health(RecordAll([], types, now))) == Red
  {
    HealthAfterErrors(types, now);
  }
}
