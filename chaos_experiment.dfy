/**
 * The capability every chaos experiment offers (the ChaosExperiment
 * interface): its severity scale and the answers an experiment gives when it
 * does not override the interface's default methods.
 */
module ChaosExperiment {

  /** ExperimentSeverity. */
  datatype Severity = Low | Medium | High

  /** `ExperimentSeverity.values()`: the constants in declaration order. */
  const Severities: seq<Severity> := [Low, Medium, High]

  /** `ordinal()`: the position of a severity in declaration order. */
  function Ordinal(s: Severity): (r: nat)
    ensures r < |Severities| && Severities[r] == s
  {
    match s
    case Low => 0
    case Medium => 1
    case High => 2
  }

  /** Exactly three severities, each listed once, LOW before MEDIUM before HIGH. */
  lemma SeverityScale()
    ensures |Severities| == 3
    ensures forall s: Severity :: s in Severities
    ensures Ordinal(Low) < Ordinal(Medium) < Ordinal(High)
    ensures forall s, t: Severity :: Ordinal(s) == Ordinal(t) ==> s == t
  {
    forall s: Severity ensures s in Severities {
      assert Severities[Ordinal(s)] == s;
    }
  }

  /** `getExpectedDurationMs()` when not overridden. */
  function DefaultExpectedDurationMs(): nat
  {
    5000
  }

  /** `getSeverity()` when not overridden. */
  function DefaultSeverity(): Severity
  {
    Medium
  }

  /** `isEnabled()` when not overridden. */
  predicate DefaultEnabled()
  {
    true
  }

  /** An experiment that overrides nothing lasts 5 seconds, has MEDIUM severity and is enabled. */
  lemma InterfaceDefaults()
    ensures DefaultExpectedDurationMs() == 5000
    ensures DefaultSeverity() == Medium && Ordinal(DefaultSeverity()) == 1
    ensures DefaultEnabled()
  {
  }
}
