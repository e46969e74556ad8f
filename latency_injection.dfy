/**
 * The latency-injection chaos experiment: with some probability it sleeps
 * for a random number of milliseconds and classifies the delay it measured.
 * Each random draw and the measured delay are parameters.
 */
module LatencyInjection {
  import ChaosExperiment

  const MinLatencyMs: nat := 1000
  const MaxLatencyMs: nat := 5000
  /** Injection is skipped when the draw from [0, 1) exceeds this value. */
  const InjectionProbability: real := 0.7

  const Name := "Latency Injection"
  const Description := "Simulates network latency and slow dependencies to test timeout handling and circuit breakers"

  /** `getSeverity()`: overridden, with the same value as the interface default. */
  function Severity(): (r: ChaosExperiment.Severity)
    ensures r == ChaosExperiment.Medium && r == ChaosExperiment.DefaultSeverity()
  {
    ChaosExperiment.Medium
  }

  /** `getExpectedDurationMs()`: the largest latency plus a one-second buffer. */
  function ExpectedDurationMs(): (r: nat)
    ensures r == 6000
    ensures forall draw: nat :: draw < MaxLatencyMs - MinLatencyMs ==> LatencyMs(draw) < r
  {
    MaxLatencyMs + 1000
  }

  /** `execute()` returns at once when the injection draw is above the probability. */
  predicate SkipsInjection(injectionDraw: real)
  {
    injectionDraw > InjectionProbability
  }

  /** The injected latency, from a draw of `nextInt(MAX_LATENCY_MS - MIN_LATENCY_MS)`. */
  function LatencyMs(draw: nat): (r: nat)
    requires draw < MaxLatencyMs - MinLatencyMs
    ensures 1000 <= r <= 4999 && r < MaxLatencyMs
  {
    MinLatencyMs + draw
  }

  /** What the experiment reports about a measured delay. */
  datatype Impact = HighLatency | ModerateLatency | NoImpactNoted

  /** The classification of the measured delay after the sleep. */
  function ClassifyDelay(actualDelayMs: int): (r: Impact)
    ensures r == HighLatency <==> actualDelayMs > 3000
    ensures r == ModerateLatency <==> 2000 < actualDelayMs <= 3000
    ensures r == NoImpactNoted <==> actualDelayMs <= 2000
  {
    if actualDelayMs > 3000 then HighLatency
    else if actualDelayMs > 2000 then ModerateLatency
    else NoImpactNoted
  }

  /** How one run of `execute()` ends; none of them is an exception. */
  datatype Outcome =
    | Skipped
    | Completed(latencyMs: nat, impact: Impact)
    | Interrupted(latencyMs: nat)

  /**
   * `execute()`. `interrupted` says whether the sleep was interrupted and
   * `actualDelayMs` is what the clock measured across it.
   */
  function Execute(injectionDraw: real, latencyDraw: nat, interrupted: bool, actualDelayMs: int): (r: Outcome)
    requires latencyDraw < MaxLatencyMs - MinLatencyMs
    ensures r.Skipped? <==> SkipsInjection(injectionDraw)
    ensures r.Interrupted? <==> !SkipsInjection(injectionDraw) && interrupted
    ensures !r.Skipped? ==> r.latencyMs == LatencyMs(latencyDraw) && 1000 <= r.latencyMs <= 4999
    ensures r.Completed? ==> r.impact == ClassifyDelay(actualDelayMs)
  {
    if SkipsInjection(injectionDraw) then Skipped
    else
      var latency := LatencyMs(latencyDraw);
      if interrupted then Interrupted(latency) else Completed(latency, ClassifyDelay(actualDelayMs))
  }
}
