// The confidence calibration widget: settled predictions grouped into five
// confidence buckets of ten points each, with the share of correct ones in
// each bucket against the bucket's midpoint.

module ConfidenceCalibration {
  import Seqs

  /** `isCorrect`: undefined, `true`, or any other value (`false`, `null`). */
  datatype Verdict = Undefined | True | Other

  datatype Prediction = Prediction(confidence: real, isCorrect: Verdict)

  datatype Range = Range(min: real, max: real, name: string)

  datatype Calibration = Calibration(range: string, predicted: real, actual: real, count: nat)

  datatype Status = Overconfident | Underconfident | WellCalibrated

  const Ranges: seq<Range> := [
    Range(50.0, 60.0, "50-60%"), Range(60.0, 70.0, "60-70%"), Range(70.0, 80.0, "70-80%"),
    Range(80.0, 90.0, "80-90%"), Range(90.0, 100.0, "90-100%")]

  predicate Settled(p: Prediction) {
    p.isCorrect != Undefined
  }

  predicate Correct(p: Prediction) {
    p.isCorrect == True
  }

  /** `p.confidence >= range.min && p.confidence < range.max`. */
  predicate InRange(p: Prediction, r: Range) {
    r.min <= p.confidence < r.max
  }

  /** `a` is `correct` out of `count` as a percentage, for a non-empty bucket. */
  predicate IsShare(a: real, correct: nat, count: nat) {
    count > 0 ==> a * count as real == 100.0 * correct as real
  }

  /** `actual`: the percentage of correct predictions, 0 for an empty bucket. */
  function Actual(correct: nat, count: nat): (a: real)
    requires correct <= count
    ensures 0.0 <= a <= 100.0
    ensures count == 0 ==> a == 0.0
    ensures IsShare(a, correct, count)
  {
    if count > 0 then (correct as real / count as real) * 100.0 else 0.0
  }

  /** Whether bucket `i` takes `p`. As written (`closedTop` false) every
      bucket is half-open; `closedTop` also gives confidence 100 to the last
      bucket, as its label "90-100%" says. */
  predicate Takes(p: Prediction, i: nat, closedTop: bool) {
    i < |Ranges| && (InRange(p, Ranges[i]) || (closedTop && i == |Ranges| - 1 && p.confidence == 100.0))
  }

  /** The filter of bucket `i`. */
  function Taker(i: nat, closedTop: bool): Prediction -> bool {
    (p: Prediction) => Takes(p, i, closedTop)
  }

  /** The five ranges are the deciles from 50 to 100. */
  lemma RangesLayout()
    ensures |Ranges| == 5
    ensures forall i :: 0 <= i < 5 ==> (Ranges[i].min + Ranges[i].max) / 2.0 == 55.0 + 10.0 * i as real
  {
  }

  /** One entry of `ranges.map(...)`. */
  function BucketOf(settled: seq<Prediction>, i: nat, closedTop: bool): (c: Calibration)
    requires i < |Ranges|
    ensures c.range == Ranges[i].name && c.predicted == (Ranges[i].min + Ranges[i].max) / 2.0
    ensures c.count == Seqs.Count(settled, Taker(i, closedTop))
    ensures 0.0 <= c.actual <= 100.0
    ensures IsShare(c.actual, Seqs.Count(Seqs.Filter(settled, Taker(i, closedTop)), Correct), c.count)
  {
    var inRange := Seqs.Filter(settled, Taker(i, closedTop));
    var correct := Seqs.Count(inRange, Correct);
    Seqs.CountIsFilterLength(settled, Taker(i, closedTop));
    var r := Ranges[i];
    Calibration(r.name, (r.min + r.max) / 2.0, Actual(correct, |inRange|), |inRange|)
  }

  /** `fetchCalibration`'s computation: five entries in range order, over
      the predictions whose `isCorrect` is defined. */
  function Buckets(predictions: seq<Prediction>, closedTop: bool): (r: seq<Calibration>)
    ensures |r| == 5
    ensures forall i :: 0 <= i < 5 ==> r[i].range == Ranges[i].name
    ensures forall i :: 0 <= i < 5 ==> r[i].predicted == 55.0 + 10.0 * i as real
    ensures forall i :: 0 <= i < 5 ==> 0.0 <= r[i].actual <= 100.0
    ensures forall i :: 0 <= i < 5 ==> r[i].count == Seqs.Count(Seqs.Filter(predictions, Settled), Taker(i, closedTop))
  {
    var settled := Seqs.Filter(predictions, Settled);
    RangesLayout();
    seq(5, i requires 0 <= i < 5 => BucketOf(settled, i, closedTop))
  }

  /** The calibration as written, with confidence 100 in no bucket. */
  function CalibrateAsWritten(predictions: seq<Prediction>): seq<Calibration> {
    Buckets(predictions, false)
  }

  /** The intended calibration, with the last bucket closed at 100. */
  function Calibrate(predictions: seq<Prediction>): seq<Calibration> {
    Buckets(predictions, true)
  }

  /** Two different buckets never share a prediction. */
  lemma BucketsDisjoint(p: Prediction, i: nat, j: nat, closedTop: bool)
    requires i < j < 5
    ensures !(Takes(p, i, closedTop) && Takes(p, j, closedTop))
  {
  }

  /** The confidences some bucket takes: [50, 100) as written, [50, 100]
      with the last bucket closed. */
  predicate Counted(p: Prediction, closedTop: bool) {
    50.0 <= p.confidence && (p.confidence < 100.0 || (closedTop && p.confidence == 100.0))
  }

  /** The five counts add up to the predictions some bucket takes: nothing is
      counted twice. */
  lemma {:induction false} CountsAddUp(s: seq<Prediction>, c: bool)
    ensures Seqs.Count(s, Taker(0, c)) + Seqs.Count(s, Taker(1, c)) + Seqs.Count(s, Taker(2, c))
      + Seqs.Count(s, Taker(3, c)) + Seqs.Count(s, Taker(4, c)) == Seqs.Count(s, (p: Prediction) => Counted(p, c))
  {
    if s != [] {
      CountsAddUp(s[1..], c);
    }
  }

  /** The total shown over all buckets. */
  function TotalCount(c: seq<Calibration>): nat {
    if c == [] then 0 else c[0].count + TotalCount(c[1..])
  }

  /** The buckets together count every settled prediction with a
      confidence they take, so with the last bucket closed the widget
      accounts for every settled prediction from 50 to 100. */
  lemma TotalOfBuckets(predictions: seq<Prediction>, closedTop: bool)
    ensures TotalCount(Buckets(predictions, closedTop))
      == Seqs.Count(Seqs.Filter(predictions, Settled), (p: Prediction) => Counted(p, closedTop))
  {
    var c := Buckets(predictions, closedTop);
    var s := Seqs.Filter(predictions, Settled);
    assert c[4..][1..] == [] && c[3..][1..] == c[4..] && c[2..][1..] == c[3..] && c[1..][1..] == c[2..];
    assert TotalCount(c[4..]) == c[4].count;
    assert TotalCount(c[3..]) == c[3].count + c[4].count;
    assert TotalCount(c[2..]) == c[2].count + c[3].count + c[4].count;
    assert TotalCount(c[1..]) == c[1].count + c[2].count + c[3].count + c[4].count;
    CountsAddUp(s, closedTop);
  }

  /** Shown under a bucket only when it holds predictions. */
  function StatusOf(c: Calibration): (s: Status)
    ensures s == Overconfident <==> c.actual - c.predicted < -5.0
    ensures s == Underconfident <==> c.actual - c.predicted > 5.0
    ensures s == WellCalibrated <==> -5.0 <= c.actual - c.predicted <= 5.0
  {
    var diff := c.actual - c.predicted;
    if diff < -5.0 then Overconfident else if diff > 5.0 then Underconfident else WellCalibrated
  }

  predicate ShowsStatus(c: Calibration) {
    c.count > 0
  }

  /** As written, a certain prediction, confidence 100, lands in no bucket:
      the last one, labelled 90-100%, stops before 100. */
  lemma FullConfidenceDropped(p: Prediction)
    requires p.confidence == 100.0
    ensures forall i :: 0 <= i < 5 ==> !Takes(p, i, false)
    ensures Takes(p, 4, true)
  {
  }

  /** With the last bucket closed, every confidence from 50 to 100 lands in
      exactly one bucket. */
  lemma ExactlyOneBucket(p: Prediction)
    requires 50.0 <= p.confidence <= 100.0
    ensures exists i :: 0 <= i < 5 && Takes(p, i, true)
    ensures forall i, j :: 0 <= i < j < 5 ==> !(Takes(p, i, true) && Takes(p, j, true))
  {
    if p.confidence < 60.0 {
      assert Takes(p, 0, true);
    } else if p.confidence < 70.0 {
      assert Takes(p, 1, true);
    } else if p.confidence < 80.0 {
      assert Takes(p, 2, true);
    } else if p.confidence < 90.0 {
      assert Takes(p, 3, true);
    } else {
      assert Takes(p, 4, true);
    }
  }
}
