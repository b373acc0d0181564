// The 7(1) filter of the front-end strategist: seven quality checks on an
// enhanced prediction, counted into a score, then one final decision.

module MagajicoCeo {
  import opened Seqs

  datatype Decision = Dominate | Execute | Monitor | Avoid

  /** The fields of an enhanced prediction the filter reads. */
  datatype FilterInput = FilterInput(
    confidence: real,
    sharpConfidence: real,
    smartMoneyIndicator: bool,
    edgePercentages: seq<real>,
    overallRiskScore: real,
    marketEfficiency: real)

  datatype Filter = Filter(
    confidenceCheck: bool,
    marketValidation: bool,
    sharpMoneyAlignment: bool,
    valueOpportunity: bool,
    riskAssessment: bool,
    liquidityCheck: bool,
    informationEdge: bool,
    finalDecision: Decision)

  /** `value_opportunities.some(v => v.edge_percentage > bound)`. */
  predicate SomeEdgeAbove(edges: seq<real>, bound: real) {
    exists i :: 0 <= i < |edges| && edges[i] > bound
  }

  function Checks(f: Filter): seq<bool> {
    [f.confidenceCheck, f.marketValidation, f.sharpMoneyAlignment, f.valueOpportunity,
     f.riskAssessment, f.liquidityCheck, f.informationEdge]
  }

  function IsSet(b: bool): bool {
    b
  }

  /** `[...checks].filter(Boolean).length`. */
  function FilterScore(f: Filter): (n: nat)
    ensures n <= 7
  {
    Count(Checks(f), IsSet)
  }

  /** The seven checks, before the decision is made. */
  function ChecksOf(p: FilterInput): (f: Filter)
    ensures f.valueOpportunity <==> SomeEdgeAbove(p.edgePercentages, 10.0)
    ensures f.riskAssessment <==> p.overallRiskScore < 0.3
    ensures f.confidenceCheck <==> p.confidence > 0.70
    ensures f.marketValidation ==> f.liquidityCheck
    ensures f.finalDecision == Monitor
  {
    Filter(p.confidence > 0.70,
           p.sharpConfidence > 0.65,
           p.smartMoneyIndicator,
           |p.edgePercentages| > 0 && SomeEdgeAbove(p.edgePercentages, 10.0),
           p.overallRiskScore < 0.3,
           p.sharpConfidence > 0.5,
           p.marketEfficiency < 90.0,
           Monitor)
  }

  /** `apply7Filter`. */
  function Apply7Filter(p: FilterInput): (f: Filter)
    ensures f.(finalDecision := Monitor) == ChecksOf(p)
    ensures f.finalDecision == Dominate <==>
      FilterScore(ChecksOf(p)) >= 6 && p.confidence > 0.85 && SomeEdgeAbove(p.edgePercentages, 20.0)
    ensures f.finalDecision == Execute <==>
      !(FilterScore(ChecksOf(p)) >= 6 && p.confidence > 0.85 && SomeEdgeAbove(p.edgePercentages, 20.0))
      && FilterScore(ChecksOf(p)) >= 5 && p.confidence > 0.75
    ensures f.finalDecision == Avoid <==> FilterScore(ChecksOf(p)) < 3
  {
    var checks := ChecksOf(p);
    var score := FilterScore(checks);
    var decision :=
      if score >= 6 && p.confidence > 0.85 && SomeEdgeAbove(p.edgePercentages, 20.0) then Dominate
      else if score >= 5 && p.confidence > 0.75 then Execute
      else if score >= 3 then Monitor
      else Avoid;
    checks.(finalDecision := decision)
  }

  /** A DOMINATE call has passed the confidence and value checks on the way. */
  lemma DominatePassesChecks(p: FilterInput)
    requires Apply7Filter(p).finalDecision == Dominate
    ensures Apply7Filter(p).confidenceCheck && Apply7Filter(p).valueOpportunity
  {
    var i :| 0 <= i < |p.edgePercentages| && p.edgePercentages[i] > 20.0;
    assert p.edgePercentages[i] > 10.0;
  }

  /** Decisions only improve as checks are added: a score of 3 or more never leads to AVOID. */
  lemma ScoreThreeNeverAvoids(p: FilterInput)
    requires FilterScore(ChecksOf(p)) >= 3
    ensures Apply7Filter(p).finalDecision != Avoid
  {
  }

  /** The score counts the passed checks, one by one. */
  lemma {:induction false} ScoreCountsChecks(f: Filter)
    ensures FilterScore(f) == (if f.confidenceCheck then 1 else 0) + (if f.marketValidation then 1 else 0)
      + (if f.sharpMoneyAlignment then 1 else 0) + (if f.valueOpportunity then 1 else 0)
      + (if f.riskAssessment then 1 else 0) + (if f.liquidityCheck then 1 else 0)
      + (if f.informationEdge then 1 else 0)
  {
    var c := Checks(f);
    assert c[6..][1..] == [];
    assert Count(c[6..], IsSet) == (if c[6] then 1 else 0);
    assert c[5..][1..] == c[6..];
    assert Count(c[5..], IsSet) == (if c[5] then 1 else 0) + Count(c[6..], IsSet);
    assert c[4..][1..] == c[5..];
    assert Count(c[4..], IsSet) == (if c[4] then 1 else 0) + Count(c[5..], IsSet);
    assert c[3..][1..] == c[4..];
    assert Count(c[3..], IsSet) == (if c[3] then 1 else 0) + Count(c[4..], IsSet);
    assert c[2..][1..] == c[3..];
    assert Count(c[2..], IsSet) == (if c[2] then 1 else 0) + Count(c[3..], IsSet);
    assert c[1..][1..] == c[2..];
    assert Count(c[1..], IsSet) == (if c[1] then 1 else 0) + Count(c[2..], IsSet);
  }

  /** With every check passed, high confidence and a 20-point edge, the call is DOMINATE. */
  lemma AllChecksDominate(p: FilterInput)
    requires p.confidence > 0.85 && p.sharpConfidence > 0.65 && p.smartMoneyIndicator
    requires p.overallRiskScore < 0.3 && p.marketEfficiency < 90.0
    requires |p.edgePercentages| > 0 && p.edgePercentages[0] > 20.0
    ensures Apply7Filter(p).finalDecision == Dominate
  {
    ScoreCountsChecks(ChecksOf(p));
  }
}
