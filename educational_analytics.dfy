// Educational analytics: the comprehension percentage of a quiz, and the
// next topic to study, which is the category with the lowest average score
// (below 100) in the user's history.

module EducationalAnalytics {
  const DefaultTopic := "basics"
  const Ceiling := 100.0

  /** `calculateComprehension`. */
  function Comprehension(correct: real, total: real): (r: real)
    ensures total == 0.0 ==> r == 0.0
    ensures total != 0.0 ==> r * total == 100.0 * correct
  {
    if total == 0.0 then 0.0 else (correct / total) * 100.0
  }

  /** With no more correct answers than questions the result is a percentage. */
  lemma ComprehensionIsPercentage(correct: real, total: real)
    requires 0.0 <= correct <= total
    ensures 0.0 <= Comprehension(correct, total) <= 100.0
  {
    if total != 0.0 {
      assert correct / total <= 1.0;
    }
  }

  datatype Metric = Metric(category: string, value: real)

  /** The categories in order of first appearance: the key order of `categoryScores`. */
  function Categories(h: seq<Metric>): (r: seq<string>)
    ensures forall i, j :: 0 <= i < j < |r| ==> r[i] != r[j]
  {
    if h == [] then []
    else
      var init := Categories(h[..|h| - 1]);
      if h[|h| - 1].category in init then init else init + [h[|h| - 1].category]
  }

  /** The scores of a category, in history order. */
  function ScoresOf(h: seq<Metric>, c: string): seq<real>
  {
    if h == [] then []
    else ScoresOf(h[..|h| - 1], c) + (if h[|h| - 1].category == c then [h[|h| - 1].value] else [])
  }

  /** The categories are exactly those of the history, and each has a score. */
  lemma {:induction false} CategoriesOfHistory(h: seq<Metric>, c: string)
    ensures c in Categories(h) <==> exists k :: 0 <= k < |h| && h[k].category == c
    ensures c in Categories(h) <==> |ScoresOf(h, c)| > 0
  {
    if h != [] {
      var init := h[..|h| - 1];
      CategoriesOfHistory(init, c);
      if exists k :: 0 <= k < |init| && init[k].category == c {
        var k :| 0 <= k < |init| && init[k].category == c;
        assert h[k] == init[k];
      }
      if exists k :: 0 <= k < |h| && h[k].category == c {
        var k :| 0 <= k < |h| && h[k].category == c;
        if k < |init| {
          assert init[k] == h[k];
        }
      }
    }
  }

  function Total(s: seq<real>): real {
    if s == [] then 0.0 else Total(s[..|s| - 1]) + s[|s| - 1]
  }

  /** `scores.reduce((a, b) => a + b, 0) / scores.length`. An empty list,
      which no category has, would give NaN, which is never below the running
      lowest; 100 behaves the same here. */
  function Average(s: seq<real>): real {
    if |s| == 0 then Ceiling else Total(s) / |s| as real
  }

  function AverageOf(h: seq<Metric>, c: string): real {
    Average(ScoresOf(h, c))
  }

  /** The pair (`lowestCategory`, `lowestAvg`) after visiting the listed categories. */
  function Lowest(h: seq<Metric>, cats: seq<string>): (string, real)
  {
    if cats == [] then (DefaultTopic, Ceiling)
    else
      var prev := Lowest(h, cats[..|cats| - 1]);
      var avg := AverageOf(h, cats[|cats| - 1]);
      if avg < prev.1 then (cats[|cats| - 1], avg) else prev
  }

  /** `recommendNextTopic` as a value. */
  function Recommended(h: seq<Metric>): string {
    if h == [] then DefaultTopic else Lowest(h, Categories(h)).0
  }

  /** The first category with the smallest average below 100 wins, or the
      default when no average is below 100: `i` is its position, or -1. */
  lemma {:induction false} LowestIsFirstMinimum(h: seq<Metric>, cats: seq<string>) returns (i: int)
    ensures -1 <= i < |cats|
    ensures i == -1 ==> Lowest(h, cats) == (DefaultTopic, Ceiling)
    ensures i == -1 ==> forall k :: 0 <= k < |cats| ==> AverageOf(h, cats[k]) >= Ceiling
    ensures i >= 0 ==> Lowest(h, cats) == (cats[i], AverageOf(h, cats[i])) && AverageOf(h, cats[i]) < Ceiling
    ensures i >= 0 ==> forall k :: 0 <= k < i ==> AverageOf(h, cats[k]) > AverageOf(h, cats[i])
    ensures i >= 0 ==> forall k :: i < k < |cats| ==> AverageOf(h, cats[k]) >= AverageOf(h, cats[i])
  {
    if cats == [] {
      return -1;
    }
    var init := cats[..|cats| - 1];
    var last := cats[|cats| - 1];
    var j := LowestIsFirstMinimum(h, init);
    assert forall k :: 0 <= k < |init| ==> init[k] == cats[k];
    var avg := AverageOf(h, last);
    if avg < Lowest(h, init).1 {
      i := |cats| - 1;
    } else {
      i := j;
    }
  }

  /** The recommendation is the default topic or a category of the history. */
  lemma RecommendationOccurs(h: seq<Metric>)
    ensures Recommended(h) == DefaultTopic || exists k :: 0 <= k < |h| && h[k].category == Recommended(h)
  {
    if h != [] {
      var cats := Categories(h);
      var i := LowestIsFirstMinimum(h, cats);
      if i >= 0 {
        CategoriesOfHistory(h, cats[i]);
      }
    }
  }

  lemma NextPrefix(h: seq<Metric>, i: nat, c: string)
    requires i < |h|
    ensures Categories(h[..i + 1]) ==
      (if h[i].category in Categories(h[..i]) then Categories(h[..i]) else Categories(h[..i]) + [h[i].category])
    ensures ScoresOf(h[..i + 1], c) == ScoresOf(h[..i], c) + (if h[i].category == c then [h[i].value] else [])
  {
    assert h[..i + 1][..i] == h[..i];
  }

  lemma LowestNext(h: seq<Metric>, cats: seq<string>, j: nat)
    requires j < |cats|
    ensures Lowest(h, cats[..j + 1]) ==
      (if AverageOf(h, cats[j]) < Lowest(h, cats[..j]).1 then (cats[j], AverageOf(h, cats[j])) else Lowest(h, cats[..j]))
  {
    assert cats[..j + 1][..j] == cats[..j];
  }

  /** The first loop of `recommendNextTopic`: the scores grouped by
      category into a map whose key order is kept in `order`. */
  method GroupScores(history: seq<Metric>) returns (scores: map<string, seq<real>>, order: seq<string>)
    ensures order == Categories(history)
    ensures forall c :: c in scores <==> c in order
    ensures forall c :: c in scores ==> scores[c] == ScoresOf(history, c)
  {
    scores := map[];
    order := [];
    var i := 0;
    while i < |history|
      invariant 0 <= i <= |history|
      invariant order == Categories(history[..i])
      invariant forall c :: c in scores <==> c in order
      invariant forall c :: c in scores ==> scores[c] == ScoresOf(history[..i], c)
    {
      var m := history[i];
      if m.category !in scores {
        CategoriesOfHistory(history[..i], m.category);
        scores := scores[m.category := []];
        order := order + [m.category];
      }
      scores := scores[m.category := scores[m.category] + [m.value]];
      forall c ensures ScoresOf(history[..i + 1], c) == ScoresOf(history[..i], c) + (if m.category == c then [m.value] else []) {
        NextPrefix(history, i, c);
      }
      NextPrefix(history, i, m.category);
      i := i + 1;
    }
    assert history[..i] == history;
  }

  /** `recommendNextTopic`: the scores are grouped by category, then the
      averages are compared in the map's key order. */
  method RecommendNextTopic(history: seq<Metric>) returns (topic: string)
    ensures topic == Recommended(history)
  {
    if |history| == 0 {
      return DefaultTopic;
    }
    var scores, order := GroupScores(history);
    var lowestCategory := DefaultTopic;
    var lowestAvg := Ceiling;
    var j := 0;
    while j < |order|
      invariant 0 <= j <= |order|
      invariant (lowestCategory, lowestAvg) == Lowest(history, order[..j])
    {
      var category := order[j];
      LowestNext(history, order, j);
      var avg := Average(scores[category]);
      if avg < lowestAvg {
        lowestAvg := avg;
        lowestCategory := category;
      }
      j := j + 1;
    }
    assert order[..j] == order;
    topic := lowestCategory;
  }
}
