// The prediction streak widget: predictions sorted newest first, then one
// walk counting runs of correct predictions. A wrong prediction ends a run;
// one not yet settled neither extends nor ends it.

module PredictionStreak {
  import opened Wrappers
  import Seqs

  const OnFireStreak := 5

  /** `isCorrect` is `Some(b)` when it is the boolean `b`, `None` otherwise. */
  datatype Prediction = Prediction(createdAt: int, isCorrect: Option<bool>)

  function CreatedAt(p: Prediction): real {
    p.createdAt as real
  }

  /** `sort((a, b) => time(b) - time(a))`. */
  function NewestFirst(ps: seq<Prediction>): (r: seq<Prediction>)
    ensures multiset(r) == multiset(ps)
    ensures Seqs.SortedDesc(r, CreatedAt)
  {
    Seqs.SortDesc(ps, CreatedAt)
  }

  predicate Hit(p: Prediction) {
    p.isCorrect == Some(true)
  }

  /** No wrong prediction in the stretch. */
  predicate NoMiss(s: seq<Prediction>) {
    forall k :: 0 <= k < |s| ==> s[k].isCorrect != Some(false)
  }

  function Hits(s: seq<Prediction>): nat {
    Seqs.Count(s, Hit)
  }

  /** The correct predictions since the last wrong one. */
  function TrailingRun(s: seq<Prediction>): nat
  {
    if s == [] then 0
    else if s[|s| - 1].isCorrect == Some(false) then 0
    else TrailingRun(s[..|s| - 1]) + (if Hit(s[|s| - 1]) then 1 else 0)
  }

  /** The longest run seen so far. */
  function Best(s: seq<Prediction>): nat
  {
    if s == [] then 0
    else
      var b := Best(s[..|s| - 1]);
      if TrailingRun(s) > b then TrailingRun(s) else b
  }

  /** The walk of `fetchStreak`: `streak` is the counter left at the end,
      `best` the largest value it reached. */
  method Streaks(predictions: seq<Prediction>) returns (streak: nat, best: nat)
    ensures streak == TrailingRun(predictions) && best == Best(predictions)
    ensures streak <= best
  {
    var temp: nat := 0;
    best := 0;
    var i := 0;
    while i < |predictions|
      invariant 0 <= i <= |predictions|
      invariant temp == TrailingRun(predictions[..i]) && best == Best(predictions[..i])
      invariant temp <= best
    {
      var p := predictions[i];
      assert predictions[..i + 1][..i] == predictions[..i];
      if p.isCorrect == Some(true) {
        temp := temp + 1;
        if temp > best {
          best := temp;
        }
      } else if p.isCorrect == Some(false) {
        temp := 0;
      }
      i := i + 1;
    }
    assert predictions[..i] == predictions;
    streak := temp;
  }

  lemma CountSnoc(s: seq<Prediction>, x: Prediction)
    ensures Hits(s + [x]) == Hits(s) + (if Hit(x) then 1 else 0)
  {
    CountAppend(s, [x]);
  }

  lemma {:induction false} CountAppend(a: seq<Prediction>, b: seq<Prediction>)
    ensures Hits(a + b) == Hits(a) + Hits(b)
  {
    if a == [] {
      assert a + b == b;
    } else {
      assert (a + b)[1..] == a[1..] + b;
      CountAppend(a[1..], b);
    }
  }

  /** The trailing run counts the correct predictions of any miss-free
      stretch reaching the end, and one such stretch gives it exactly. */
  lemma {:induction false} TrailingRunIsLastStretch(s: seq<Prediction>, i: nat)
    requires i <= |s| && NoMiss(s[i..])
    ensures Hits(s[i..]) <= TrailingRun(s)
  {
    if i < |s| {
      var init := s[..|s| - 1];
      assert s[i..] == init[i..] + [s[|s| - 1]];
      assert NoMiss(init[i..]) by {
        forall k | 0 <= k < |init[i..]| ensures init[i..][k].isCorrect != Some(false) {
          assert init[i..][k] == s[i..][k];
        }
      }
      assert s[|s| - 1] == s[i..][|s| - 1 - i];
      TrailingRunIsLastStretch(init, i);
      CountSnoc(init[i..], s[|s| - 1]);
    }
  }

  lemma {:induction false} TrailingRunAttained(s: seq<Prediction>) returns (i: nat)
    ensures i <= |s| && NoMiss(s[i..]) && Hits(s[i..]) == TrailingRun(s)
  {
    if s == [] {
      return 0;
    }
    var init := s[..|s| - 1];
    var last := s[|s| - 1];
    if last.isCorrect == Some(false) {
      i := |s|;
      return;
    }
    var j := TrailingRunAttained(init);
    assert s[j..] == init[j..] + [last];
    CountSnoc(init[j..], last);
    assert NoMiss(s[j..]) by {
      forall k | 0 <= k < |s[j..]| ensures s[j..][k].isCorrect != Some(false) {
        if k < |init[j..]| {
          assert s[j..][k] == init[j..][k];
        }
      }
    }
    i := j;
  }

  /** `bestStreak` bounds the correct predictions of every stretch without a
      wrong one... */
  lemma {:induction false} BestBoundsEveryRun(s: seq<Prediction>, i: nat, j: nat)
    requires i <= j <= |s| && NoMiss(s[i..j])
    ensures Hits(s[i..j]) <= Best(s)
    decreases |s|
  {
    if j == |s| {
      assert s[i..j] == s[i..];
      TrailingRunIsLastStretch(s, i);
    } else {
      var init := s[..|s| - 1];
      assert init[i..j] == s[i..j];
      BestBoundsEveryRun(init, i, j);
    }
  }

  /** ...and is reached by one of them. */
  lemma {:induction false} BestIsAttained(s: seq<Prediction>) returns (i: nat, j: nat)
    ensures i <= j <= |s| && NoMiss(s[i..j]) && Hits(s[i..j]) == Best(s)
    decreases |s|
  {
    if s == [] {
      return 0, 0;
    }
    var init := s[..|s| - 1];
    if TrailingRun(s) > Best(init) {
      i := TrailingRunAttained(s);
      j := |s|;
      assert s[i..j] == s[i..];
    } else {
      i, j := BestIsAttained(init);
      assert init[i..j] == s[i..j];
    }
  }

  /** A prediction not yet settled changes neither counter. */
  lemma UnsettledChangesNothing(s: seq<Prediction>, p: Prediction)
    requires p.isCorrect.None?
    ensures TrailingRun(s + [p]) == TrailingRun(s) && Best(s + [p]) == Best(s)
  {
    assert (s + [p])[..|s|] == s;
  }

  // ---------------------------------------------------------------------
  // The displayed streak as written and as intended

  /** The walk runs newest first, so the counter it ends with, which the
      widget shows as the current streak, is the run of the oldest
      predictions: a correct latest prediction after a wrong one shows 0. */
  lemma ShownStreakIsOldestRun(ps: seq<Prediction>)
    requires ps == [Prediction(2, Some(true)), Prediction(1, Some(false))]
    ensures NewestFirst(ps) == ps
    ensures TrailingRun(NewestFirst(ps)) == 0
    ensures LatestRun(NewestFirst(ps)) == 1
  {
    var key := CreatedAt;
    assert Seqs.SortDesc(ps[1..], key) == [ps[1]];
    assert NewestFirst(ps) == Seqs.Insert(ps[0], [ps[1]], key);
    assert ps[1..] == [Prediction(1, Some(false))];
  }

  /** The current streak: the correct predictions before the latest wrong
      one, on a newest-first list. */
  function LatestRun(s: seq<Prediction>): nat
  {
    if s == [] then 0
    else if s[0].isCorrect == Some(false) then 0
    else (if Hit(s[0]) then 1 else 0) + LatestRun(s[1..])
  }

  /** The latest run counts the correct predictions of the miss-free stretch
      that ends at the newest wrong prediction or at the oldest one. */
  lemma {:induction false} LatestRunIsNewestStretch(s: seq<Prediction>, k: nat)
    requires k <= |s| && NoMiss(s[..k]) && (k == |s| || s[k].isCorrect == Some(false))
    ensures LatestRun(s) == Hits(s[..k])
  {
    if k > 0 {
      assert s[..k][0] == s[0];
      assert s[1..][..k - 1] == s[..k][1..];
      var t := s[1..][..k - 1];
      var u := s[..k];
      assert NoMiss(t) by {
        forall j | 0 <= j < |t| ensures t[j].isCorrect != Some(false) {
          assert t[j] == u[j + 1];
        }
      }
      LatestRunIsNewestStretch(s[1..], k - 1);
    }
  }

  /** The latest run never exceeds the best one. */
  lemma LatestRunAtMostBest(s: seq<Prediction>)
    ensures LatestRun(s) <= Best(s)
  {
    var k := NewestMiss(s);
    LatestRunIsNewestStretch(s, k);
    BestBoundsEveryRun(s, 0, k);
    assert s[0..k] == s[..k];
  }

  /** The position of the newest wrong prediction, or the length. */
  function NewestMiss(s: seq<Prediction>): (k: nat)
    ensures k <= |s| && NoMiss(s[..k]) && (k == |s| || s[k].isCorrect == Some(false))
  {
    if s == [] then 0
    else if s[0].isCorrect == Some(false) then 0
    else
      var k := NewestMiss(s[1..]);
      var t := s[1..][..k];
      var u := s[..k + 1];
      assert forall j :: 1 <= j < |u| ==> u[j] == t[j - 1];
      k + 1
  }

  /** The widget's state. */
  class Widget {
    var streak: nat
    var bestStreak: nat
    var loading: bool

    constructor()
      ensures streak == 0 && bestStreak == 0 && loading
    {
      streak, bestStreak, loading := 0, 0, true;
    }

    /** `fetchStreak`: `data` is the array of an answer with `success`, or
        `None` for any other answer or a failed request. The best streak is
        the walk's; the current streak is the latest run, which the walk's
        final counter was meant to be. */
    method FetchStreak(data: Option<seq<Prediction>>)
      modifies this
      ensures !loading
      ensures data.None? ==> streak == old(streak) && bestStreak == old(bestStreak)
      ensures data.Some? ==>
        streak == LatestRun(NewestFirst(data.value)) && bestStreak == Best(NewestFirst(data.value))
      ensures streak <= bestStreak || (data.None? && streak == old(streak) && bestStreak == old(bestStreak))
    {
      if data.Some? {
        var predictions := NewestFirst(data.value);
        var _, b := Streaks(predictions);
        LatestRunAtMostBest(predictions);
        streak, bestStreak := LatestRun(predictions), b;
      }
      loading := false;
    }

    /** The "ON FIRE!" badge. */
    predicate OnFire()
      reads this
    {
      streak >= OnFireStreak
    }
  }
}
