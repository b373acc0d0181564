// The performance optimizer panel: a score out of 100 computed from the page's
// load time, render time, memory use and network latency, and the colour it
// is shown in.

module PerformanceOptimizer {
  import Numbers

  const LoadLimitMs := 3000.0
  const RenderLimitMs := 100.0
  const MemoryLimit := 80.0
  const LatencyLimitMs := 500.0

  /** The panel's metrics; memory use is a percentage. */
  datatype Metrics = Metrics(loadTime: real, renderTime: real, memoryUsage: real, networkLatency: real, batteryLevel: real)

  /** The metrics before any measurement. */
  const Initial := Metrics(0.0, 0.0, 0.0, 0.0, 85.0)

  function Penalty(over: bool, points: int): int {
    if over then points else 0
  }

  /** The score as a sum: 100 less 20 for a slow load, 15 for a slow render,
      20 for high memory use and 15 for a slow network. */
  function ScoreOf(m: Metrics): int {
    100 - Penalty(m.loadTime > LoadLimitMs, 20) - Penalty(m.renderTime > RenderLimitMs, 15)
    - Penalty(m.memoryUsage > MemoryLimit, 20) - Penalty(m.networkLatency > LatencyLimitMs, 15)
  }

  /** `getPerformanceScore`: the checks take points off one after another,
      and the result is clamped at 0. */
  method PerformanceScore(m: Metrics) returns (score: int)
    ensures score == ScoreOf(m)
    ensures 30 <= score <= 100
  {
    score := 100;
    if m.loadTime > LoadLimitMs {
      score := score - 20;
    }
    if m.renderTime > RenderLimitMs {
      score := score - 15;
    }
    if m.memoryUsage > MemoryLimit {
      score := score - 20;
    }
    if m.networkLatency > LatencyLimitMs {
      score := score - 15;
    }
    ScoreBounds(m);
    score := if score > 0 then score else 0;
  }

  /** The score lies in [30, 100], so clamping at 0 never applies; it is 100
      exactly when no limit is passed. */
  lemma ScoreBounds(m: Metrics)
    ensures 30 <= ScoreOf(m) <= 100
    ensures ScoreOf(m) == 100 <==>
      m.loadTime <= LoadLimitMs && m.renderTime <= RenderLimitMs && m.memoryUsage <= MemoryLimit
      && m.networkLatency <= LatencyLimitMs
  {
  }

  /** Worse metrics never raise the score. */
  lemma ScoreMonotone(a: Metrics, b: Metrics)
    requires a.loadTime <= b.loadTime && a.renderTime <= b.renderTime
    requires a.memoryUsage <= b.memoryUsage && a.networkLatency <= b.networkLatency
    ensures ScoreOf(b) <= ScoreOf(a)
  {
  }

  /** `Math.round(Math.random() * 200 + 50)` for a random draw in [0, 1). */
  function Latency(random: real): (ms: int)
    requires 0.0 <= random < 1.0
    ensures 50 <= ms <= 250
  {
    Numbers.JsRoundMonotone(50.0, random * 200.0 + 50.0);
    Numbers.JsRoundMonotone(random * 200.0 + 50.0, 250.0);
    Numbers.JsRoundInt(50);
    Numbers.JsRoundInt(250);
    Numbers.JsRound(random * 200.0 + 50.0)
  }

  /** The metrics as the panel's effect leaves them: the load time is never
      measured, and the latency is drawn at random. */
  function Measured(renderTime: real, memoryUsage: real, random: real): (m: Metrics)
    requires 0.0 <= random < 1.0
    ensures m.loadTime == 0.0 && 50.0 <= m.networkLatency <= 250.0
  {
    Metrics(0.0, renderTime, memoryUsage, Latency(random) as real, Initial.batteryLevel)
  }

  /** So the load and latency checks never fire: the score shown is 100, 85,
      80 or 65. */
  lemma ShownScores(renderTime: real, memoryUsage: real, random: real)
    requires 0.0 <= random < 1.0
    ensures ScoreOf(Measured(renderTime, memoryUsage, random)) in {100, 85, 80, 65}
    ensures ScoreOf(Measured(renderTime, memoryUsage, random)) >= 65
  {
  }

  datatype Colour = Green | Yellow | Red

  /** `getScoreColor`. */
  function ScoreColour(score: int): (c: Colour)
    ensures c == Green <==> score >= 80
    ensures c == Yellow <==> 60 <= score < 80
    ensures c == Red <==> score < 60
  {
    if score >= 80 then Green else if score >= 60 then Yellow else Red
  }

  /** With the load, the memory use and the latency within their limits the
      score is green, whatever the render time. */
  lemma ColourOfOnePenalty(m: Metrics)
    requires m.loadTime <= LoadLimitMs && m.memoryUsage <= MemoryLimit && m.networkLatency <= LatencyLimitMs
    ensures ScoreColour(ScoreOf(m)) == Green
  {
  }
}
