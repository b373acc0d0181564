// Consensus voting across the prediction sources of one match (ml, scraper,
// database): the most common prediction wins, a tie in votes goes to the
// larger summed confidence, and an exact tie to the prediction seen first.

module Consensus {
  import opened Wrappers
  import opened Seqs
  import opened Numbers

  datatype Vote = Vote(prediction: string, confidence: real)

  datatype Sources = Sources(ml: Option<Vote>, scraper: Option<Vote>, database: Option<Vote>)

  datatype Agreement = Agreement(prediction: string, averageConfidence: int, agreement: int)

  /** The per-prediction entry of the counting map. */
  datatype Tally = Tally(count: nat, totalConfidence: real)

  /** The running best of the second pass: `maxCount`, `consensusPrediction`, `totalConfidence`. */
  datatype Leader = Leader(prediction: string, count: nat, totalConfidence: real)

  function Present(o: Option<Vote>): seq<Vote> {
    if o.Some? then [o.value] else []
  }

  /** The votes in ml, scraper, database order, skipping absent sources. */
  function Votes(s: Sources): (r: seq<Vote>)
    ensures |r| <= 3
    ensures r == [] <==> s.ml.None? && s.scraper.None? && s.database.None?
    ensures s.ml.Some? ==> r[0] == s.ml.value
  {
    Present(s.ml) + Present(s.scraper) + Present(s.database)
  }

  function CountOf(votes: seq<Vote>, p: string): nat {
    if votes == [] then 0
    else CountOf(votes[..|votes| - 1], p) + (if votes[|votes| - 1].prediction == p then 1 else 0)
  }

  function ConfidenceOf(votes: seq<Vote>, p: string): real {
    if votes == [] then 0.0
    else ConfidenceOf(votes[..|votes| - 1], p) + (if votes[|votes| - 1].prediction == p then votes[|votes| - 1].confidence else 0.0)
  }

  function VoteConfidence(v: Vote): real {
    v.confidence
  }

  /** Adding one vote adds one to its prediction's tally and leaves the others alone. */
  lemma TallyExtend(votes: seq<Vote>, v: Vote, k: string)
    ensures TallyOf(votes + [v], k) ==
      if v.prediction == k then Tally(CountOf(votes, k) + 1, ConfidenceOf(votes, k) + v.confidence)
      else TallyOf(votes, k)
  {
    assert (votes + [v])[..|votes + [v]| - 1] == votes;
  }

  lemma LabelsExtend(votes: seq<Vote>, v: Vote)
    ensures Labels(votes + [v]) == if v.prediction in Labels(votes) then Labels(votes) else Labels(votes) + [v.prediction]
  {
    assert (votes + [v])[..|votes + [v]| - 1] == votes;
  }

  function TallyOf(votes: seq<Vote>, p: string): Tally {
    Tally(CountOf(votes, p), ConfidenceOf(votes, p))
  }

  /** The distinct predictions in order of first appearance: the counting map's key order. */
  function Labels(votes: seq<Vote>): seq<string> {
    if votes == [] then []
    else
      var earlier := Labels(votes[..|votes| - 1]);
      var p := votes[|votes| - 1].prediction;
      if p in earlier then earlier else earlier + [p]
  }

  /** A prediction is a key of the counting map exactly when some source voted for it. */
  lemma {:induction false} LabelsCounted(votes: seq<Vote>, p: string)
    ensures p in Labels(votes) <==> CountOf(votes, p) > 0
    ensures p !in Labels(votes) ==> ConfidenceOf(votes, p) == 0.0
  {
    if votes != [] {
      LabelsCounted(votes[..|votes| - 1], p);
    }
  }

  lemma {:induction false} LabelsDistinct(votes: seq<Vote>)
    ensures NoDuplicates(Labels(votes))
  {
    if votes != [] {
      LabelsDistinct(votes[..|votes| - 1]);
    }
  }

  lemma {:induction false} CountedMeansVoted(votes: seq<Vote>, p: string)
    ensures CountOf(votes, p) > 0 <==> exists i :: 0 <= i < |votes| && votes[i].prediction == p
  {
    if votes != [] {
      var init := votes[..|votes| - 1];
      CountedMeansVoted(init, p);
      if CountOf(init, p) > 0 {
        var i :| 0 <= i < |init| && init[i].prediction == p;
        assert votes[i] == init[i];
      }
      if exists i :: 0 <= i < |votes| && votes[i].prediction == p {
        var i :| 0 <= i < |votes| && votes[i].prediction == p;
        if i < |init| {
          assert init[i] == votes[i];
        }
      }
    }
  }

  /** One visit of the second pass: a larger count, or an equal count with more confidence, takes over. */
  function Step(l: Leader, key: string, t: Tally): Leader {
    if t.count > l.count || (t.count == l.count && t.totalConfidence > l.totalConfidence)
    then Leader(key, t.count, t.totalConfidence)
    else l
  }

  function Scan(keys: seq<string>, votes: seq<Vote>): Leader {
    if keys == [] then Leader("", 0, 0.0)
    else
      var k := keys[|keys| - 1];
      Step(Scan(keys[..|keys| - 1], votes), k, TallyOf(votes, k))
  }

  /** Tally t ranks no higher than the leader: fewer votes, or as many and no more confidence. */
  predicate NotAhead(t: Tally, l: Leader) {
    t.count < l.count || (t.count == l.count && t.totalConfidence <= l.totalConfidence)
  }

  /** The scan ends on a visited key holding the largest count, and the largest confidence among those. */
  lemma {:induction false} ScanLeads(keys: seq<string>, votes: seq<Vote>)
    requires keys != []
    requires forall k :: k in keys ==> CountOf(votes, k) > 0
    ensures var l := Scan(keys, votes);
      l.prediction in keys && TallyOf(votes, l.prediction) == Tally(l.count, l.totalConfidence)
      && forall k :: k in keys ==> NotAhead(TallyOf(votes, k), l)
  {
    var init := keys[..|keys| - 1];
    var k := keys[|keys| - 1];
    if init == [] {
      assert keys == [k];
    } else {
      forall x | x in init ensures CountOf(votes, x) > 0 {
        assert x in keys;
      }
      ScanLeads(init, votes);
      assert keys == init + [k];
    }
  }

  /** An exact tie keeps the earlier key: no key before the winner has the winner's tally. */
  lemma {:induction false} ScanKeepsEarliest(keys: seq<string>, votes: seq<Vote>)
    requires keys != [] && NoDuplicates(keys)
    requires forall k :: k in keys ==> CountOf(votes, k) > 0
    ensures var l := Scan(keys, votes);
      forall i, h :: 0 <= h < i < |keys| && keys[i] == l.prediction ==>
        TallyOf(votes, keys[h]) != Tally(l.count, l.totalConfidence)
  {
    var init := keys[..|keys| - 1];
    var k := keys[|keys| - 1];
    var l := Scan(keys, votes);
    if init != [] {
      forall x | x in init ensures CountOf(votes, x) > 0 {
        assert x in keys;
      }
      assert NoDuplicates(init);
      ScanLeads(init, votes);
      ScanKeepsEarliest(init, votes);
      var l0 := Scan(init, votes);
      forall i, h | 0 <= h < i < |keys| && keys[i] == l.prediction
        ensures TallyOf(votes, keys[h]) != Tally(l.count, l.totalConfidence)
      {
        assert keys[h] == init[h] && keys[h] in init;
        if l != l0 {
          // k took over, so it is strictly ahead of everything before it
          assert NotAhead(TallyOf(votes, keys[h]), l0);
        } else {
          // the winner is listed once, and it is in init
          assert i < |keys| - 1 by {
            var j :| 0 <= j < |init| && init[j] == l0.prediction;
            assert keys[j] == l0.prediction;
          }
          assert keys[i] == init[i];
        }
      }
    }
  }

  /** `Math.round((count / n) * 100)`. */
  function Percent(count: nat, n: nat): int
    requires n > 0
  {
    JsRound((count as real / n as real) * 100.0)
  }

  /** `Math.round` of the mean confidence over all votes. */
  function AverageConfidence(votes: seq<Vote>): int
    requires votes != []
  {
    JsRound(Sum(votes, VoteConfidence) / |votes| as real)
  }

  lemma {:induction false} SumBetween(votes: seq<Vote>, lo: real, hi: real)
    requires forall i :: 0 <= i < |votes| ==> lo <= votes[i].confidence <= hi
    ensures lo * |votes| as real <= Sum(votes, VoteConfidence) <= hi * |votes| as real
  {
    if votes != [] {
      SumBetween(votes[1..], lo, hi);
    }
  }

  /** The rounded mean of confidences in [lo, hi] lies in [round(lo), round(hi)];
      in particular equal whole confidences average to themselves. */
  lemma AverageBetween(votes: seq<Vote>, lo: real, hi: real)
    requires votes != []
    requires forall i :: 0 <= i < |votes| ==> lo <= votes[i].confidence <= hi
    ensures JsRound(lo) <= AverageConfidence(votes) <= JsRound(hi)
  {
    var n := |votes| as real;
    SumBetween(votes, lo, hi);
    var mean := Sum(votes, VoteConfidence) / n;
    assert lo <= mean by {
      assert lo * n <= Sum(votes, VoteConfidence);
    }
    assert mean <= hi by {
      assert Sum(votes, VoteConfidence) <= hi * n;
    }
    JsRoundMonotone(lo, mean);
    JsRoundMonotone(mean, hi);
  }

  function Winner(votes: seq<Vote>): Leader {
    Scan(Labels(votes), votes)
  }

  /** The consensus of a list of votes, as the counting and scanning passes compute it. */
  function ConsensusOf(votes: seq<Vote>): Option<Agreement> {
    if votes == [] then None
    else
      var l := Winner(votes);
      Some(Agreement(l.prediction, AverageConfidence(votes), Percent(l.count, |votes|)))
  }

  /** `calculateConsensus`: fills the counting map, then scans it in key order. */
  method CalculateConsensus(sources: Sources) returns (r: Option<Agreement>)
    ensures r == ConsensusOf(Votes(sources))
  {
    var votes := Votes(sources);
    if |votes| == 0 {
      return None;
    }
    var keys, counts := CountVotes(votes);
    var leader := ScanCounts(keys, counts, votes);
    r := Some(Agreement(leader.prediction, AverageConfidence(votes), Percent(leader.count, |votes|)));
  }

  /** The first `forEach`: one map entry per prediction, its keys in order of first appearance. */
  method CountVotes(votes: seq<Vote>) returns (keys: seq<string>, counts: map<string, Tally>)
    ensures keys == Labels(votes)
    ensures forall k :: k in counts <==> k in keys
    ensures forall k :: k in counts ==> counts[k] == TallyOf(votes, k)
  {
    keys := [];
    counts := map[];
    for i := 0 to |votes|
      invariant keys == Labels(votes[..i])
      invariant forall k :: k in counts <==> k in keys
      invariant forall k :: k in counts ==> counts[k] == TallyOf(votes[..i], k)
    {
      var v := votes[i];
      assert votes[..i + 1] == votes[..i] + [v];
      LabelsCounted(votes[..i], v.prediction);
      LabelsExtend(votes[..i], v);
      forall k ensures TallyOf(votes[..i + 1], k) ==
        if v.prediction == k then Tally(CountOf(votes[..i], k) + 1, ConfidenceOf(votes[..i], k) + v.confidence)
        else TallyOf(votes[..i], k)
      {
        TallyExtend(votes[..i], v, k);
      }
      var current := if v.prediction in counts then counts[v.prediction] else Tally(0, 0.0);
      if v.prediction !in counts {
        keys := keys + [v.prediction];
      }
      counts := counts[v.prediction := Tally(current.count + 1, current.totalConfidence + v.confidence)];
    }
    assert votes[..|votes|] == votes;
  }

  /** The second `forEach`, over the map in key order. */
  method ScanCounts(keys: seq<string>, counts: map<string, Tally>, ghost votes: seq<Vote>) returns (leader: Leader)
    requires forall k :: k in keys ==> k in counts && counts[k] == TallyOf(votes, k)
    ensures leader == Scan(keys, votes)
  {
    leader := Leader("", 0, 0.0);
    for j := 0 to |keys|
      invariant leader == Scan(keys[..j], votes)
    {
      assert keys[..j + 1][..j] == keys[..j];
      var t := counts[keys[j]];
      if t.count > leader.count || (t.count == leader.count && t.totalConfidence > leader.totalConfidence) {
        leader := Leader(keys[j], t.count, t.totalConfidence);
      }
    }
    assert keys[..|keys|] == keys;
  }

  /** The winner is a voted prediction whose tally no other voted prediction beats. */
  lemma WinnerFacts(votes: seq<Vote>)
    requires votes != []
    ensures var l := Winner(votes);
      (exists i :: 0 <= i < |votes| && votes[i].prediction == l.prediction)
      && TallyOf(votes, l.prediction) == Tally(l.count, l.totalConfidence)
      && forall i :: 0 <= i < |votes| ==> NotAhead(TallyOf(votes, votes[i].prediction), l)
  {
    var keys := Labels(votes);
    forall k | k in keys ensures CountOf(votes, k) > 0 {
      LabelsCounted(votes, k);
    }
    assert votes[0].prediction in keys by {
      CountedMeansVoted(votes, votes[0].prediction);
      LabelsCounted(votes, votes[0].prediction);
    }
    ScanLeads(keys, votes);
    var l := Scan(keys, votes);
    LabelsCounted(votes, l.prediction);
    CountedMeansVoted(votes, l.prediction);
    forall i | 0 <= i < |votes| ensures votes[i].prediction in keys {
      CountedMeansVoted(votes, votes[i].prediction);
      LabelsCounted(votes, votes[i].prediction);
    }
  }

  /**
   * What the consensus promises: undefined exactly without votes; otherwise a
   * voted prediction with the most votes, the most confidence among equals,
   * and its share of the votes as the agreement.
   */
  lemma ConsensusFacts(votes: seq<Vote>)
    ensures ConsensusOf(votes).None? <==> votes == []
    ensures ConsensusOf(votes).Some? ==>
      var a := ConsensusOf(votes).value;
      (exists i :: 0 <= i < |votes| && votes[i].prediction == a.prediction)
      && (forall i :: 0 <= i < |votes| ==> CountOf(votes, votes[i].prediction) <= CountOf(votes, a.prediction))
      && (forall i :: 0 <= i < |votes| && CountOf(votes, votes[i].prediction) == CountOf(votes, a.prediction) ==>
            ConfidenceOf(votes, votes[i].prediction) <= ConfidenceOf(votes, a.prediction))
      && a.agreement == Percent(CountOf(votes, a.prediction), |votes|)
  {
    if votes != [] {
      WinnerFacts(votes);
    }
  }

  /** The agreement is a percentage: at least 33 (one of three sources) and at most 100. */
  lemma AgreementRange(votes: seq<Vote>)
    requires 1 <= |votes| <= 3
    ensures 33 <= ConsensusOf(votes).value.agreement <= 100
  {
    WinnerFacts(votes);
    var l := Winner(votes);
    CountBound(votes, l.prediction);
    var i :| 0 <= i < |votes| && votes[i].prediction == l.prediction;
    CountedMeansVoted(votes, l.prediction);
    PercentRange(l.count, |votes|);
  }

  lemma PercentAll(n: nat)
    requires n > 0
    ensures Percent(n, n) == 100
  {
    assert n as real / n as real == 1.0;
  }

  lemma PercentRange(count: nat, n: nat)
    requires 1 <= count <= n <= 3
    ensures 33 <= Percent(count, n) <= 100
  {
    var x := (count as real / n as real) * 100.0;
    if n == 1 {
      assert x == 100.0;
    } else if n == 2 {
      assert x == 50.0 || x == 100.0;
    } else {
      assert x == 100.0 / 3.0 || x == 200.0 / 3.0 || x == 100.0;
    }
  }

  lemma {:induction false} CountBound(votes: seq<Vote>, p: string)
    ensures CountOf(votes, p) <= |votes|
  {
    if votes != [] {
      CountBound(votes[..|votes| - 1], p);
    }
  }

  /** Unanimous sources agree 100%. */
  lemma {:induction false} UnanimousIsFull(votes: seq<Vote>, p: string)
    requires votes != []
    requires forall i :: 0 <= i < |votes| ==> votes[i].prediction == p
    ensures ConsensusOf(votes).value.prediction == p && ConsensusOf(votes).value.agreement == 100
  {
    AllCounted(votes, p);
    WinnerFacts(votes);
    var l := Winner(votes);
    var i :| 0 <= i < |votes| && votes[i].prediction == l.prediction;
    PercentAll(|votes|);
  }

  lemma {:induction false} AllCounted(votes: seq<Vote>, p: string)
    requires forall i :: 0 <= i < |votes| ==> votes[i].prediction == p
    ensures CountOf(votes, p) == |votes|
  {
    if votes != [] {
      var init := votes[..|votes| - 1];
      forall i | 0 <= i < |init| ensures init[i].prediction == p {
        assert init[i] == votes[i];
      }
      AllCounted(init, p);
    }
  }

  /** Exact ties go to the prediction of the earliest source in ml, scraper, database order. */
  lemma ConsensusKeepsEarliest(votes: seq<Vote>)
    requires votes != []
    ensures var l := Winner(votes);
      forall i, h :: 0 <= h < i < |Labels(votes)| && Labels(votes)[i] == l.prediction ==>
        TallyOf(votes, Labels(votes)[h]) != TallyOf(votes, l.prediction)
  {
    var keys := Labels(votes);
    forall k | k in keys ensures CountOf(votes, k) > 0 {
      LabelsCounted(votes, k);
    }
    LabelsCounted(votes, votes[0].prediction);
    CountedMeansVoted(votes, votes[0].prediction);
    LabelsDistinct(votes);
    ScanLeads(keys, votes);
    ScanKeepsEarliest(keys, votes);
  }

  /** The current service's `aggregatePredictions` has no sources wired in: the list is always empty. */
  function AggregatePredictions(limit: int): (r: seq<Agreement>)
    ensures r == []
  {
    []
  }
}
