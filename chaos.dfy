/**
 * The chaos scheduler (ChaosMonkey): a `running` flag, a counter of executed
 * experiments and a registry of three experiments, with start and stop
 * transitions, one iteration of the background loop, a manual trigger and a
 * statistics snapshot. Every random draw is a parameter; the background
 * thread itself is not modelled, only what one pass of its loop does.
 */
module Chaos {
  import opened JavaLang
  import ChaosExperiment
  import LatencyInjection
  import ExceptionInjection

  /** The experiments the scheduler knows. */
  datatype Experiment = LatencyExperiment | ExceptionExperiment | ResourceExperiment
  {
    function Name(): string
    {
      match this
      case LatencyExperiment => LatencyInjection.Name
      case ExceptionExperiment => ExceptionInjection.Name
      case ResourceExperiment => "Resource Exhaustion"
    }

    function Severity(): ChaosExperiment.Severity
    {
      match this
      case LatencyExperiment => LatencyInjection.Severity()
      case ExceptionExperiment => ExceptionInjection.Severity()
      case ResourceExperiment => ChaosExperiment.High
    }

    function ExpectedDurationMs(): nat
    {
      match this
      case LatencyExperiment => LatencyInjection.ExpectedDurationMs()
      case ExceptionExperiment => ExceptionInjection.ExpectedDurationMs()
      case ResourceExperiment => 8000 + 2000
    }

    /** None of the three overrides `isEnabled()`. */
    predicate IsEnabled()
    {
      ChaosExperiment.DefaultEnabled()
    }
  }

  /** The registry `initializeExperiments()` builds, in insertion order. */
  const Registry: seq<Experiment> := [LatencyExperiment, ExceptionExperiment, ResourceExperiment]

  /** ChaosStats: a snapshot of the scheduler's counters. */
  datatype ChaosStats = ChaosStats(running: bool, experimentsExecuted: nat, totalExperiments: nat,
                                   enabledExperiments: nat)

  /** One call of `executeExperiment`: its number in the count, and whether `execute()` returned normally. */
  datatype ExperimentRun = ExperimentRun(number: nat, experiment: Experiment, completed: bool)

  /** How the sleep at the top of a loop iteration ends. */
  datatype SleepOutcome =
    | SleptFully
    | StoppedWhileSleeping       // another thread called stop() during the sleep
    | InterruptedWhileSleeping   // the sleep threw InterruptedException

  /** How one iteration of `runChaosLoop` ends. */
  datatype Iteration =
    | LoopExited                          // the loop condition found `running` false
    | Interrupted(waitMs: nat)            // the sleep was interrupted: the loop breaks
    | StoppedOnWake(waitMs: nat)          // the re-check after the sleep found `running` false: the loop breaks
    | NoneEnabled(waitMs: nat)            // nothing to select: the loop goes on
    | Executed(waitMs: nat, run: ExperimentRun)

  /** The stream filter on `isEnabled()`, keeping the registry's order. */
  function EnabledExperiments(experiments: seq<Experiment>): (r: seq<Experiment>)
    ensures |r| <= |experiments|
    ensures forall e :: e in r <==> e in experiments && e.IsEnabled()
    ensures forall e :: multiset(r)[e] == if e.IsEnabled() then multiset(experiments)[e] else 0
    ensures (forall i :: 0 <= i < |experiments| ==> experiments[i].IsEnabled()) ==> r == experiments
  {
    if experiments == [] then []
    else
      assert experiments == [experiments[0]] + experiments[1..];
      (if experiments[0].IsEnabled() then [experiments[0]] else []) + EnabledExperiments(experiments[1..])
  }

  /** The position of the first experiment whose name equals `name` ignoring case. */
  function FirstNamed(experiments: seq<Experiment>, name: JString): (r: Option<nat>)
    ensures r.None? <==> forall i :: 0 <= i < |experiments| ==> !EqualsIgnoreCase(experiments[i].Name(), name)
    ensures r.Some? ==> r.value < |experiments| && EqualsIgnoreCase(experiments[r.value].Name(), name)
    ensures r.Some? ==> forall i :: 0 <= i < r.value ==> !EqualsIgnoreCase(experiments[i].Name(), name)
  {
    if experiments == [] then None
    else if EqualsIgnoreCase(experiments[0].Name(), name) then Some(0)
    else
      match FirstNamed(experiments[1..], name)
      case None => None
      case Some(i) => Some(i + 1)
  }

  const BaseIntervalMs: nat := 30000
  /** `(long) (baseInterval * 0.5)`. */
  const VariationMs: nat := BaseIntervalMs / 2

  /** `getRandomWaitTime()`, from a draw of `nextLong(2 * variation)`. */
  function RandomWaitTimeMs(draw: nat): (r: nat)
    requires draw < 2 * VariationMs
    ensures 15000 <= r < 45000
    ensures r - 15000 == draw
  {
    BaseIntervalMs - VariationMs + draw
  }

  class ChaosMonkey {
    /** `app.chaos.enabled`. */
    const chaosEnabled: bool
    var running: bool
    var experimentsExecuted: nat
    var availableExperiments: seq<Experiment>

    /** After construction the registry never changes. */
    ghost predicate Valid()
      reads this
    {
      availableExperiments == Registry
    }

    constructor (chaosEnabled: bool)
      ensures Valid() && this.chaosEnabled == chaosEnabled
      ensures !running && experimentsExecuted == 0
    {
      this.chaosEnabled := chaosEnabled;
      running := false;
      experimentsExecuted := 0;
      availableExperiments := [];
      new;
      InitializeExperiments();
    }

    /** `initializeExperiments()`: appends the three experiments. */
    method InitializeExperiments()
      modifies this`availableExperiments
      ensures availableExperiments == old(availableExperiments) + Registry
    {
      availableExperiments := availableExperiments + [LatencyExperiment];
      availableExperiments := availableExperiments + [ExceptionExperiment];
      availableExperiments := availableExperiments + [ResourceExperiment];
    }

    /**
     * `startChaosMonkey()`. Disabled: nothing changes and no loop is launched.
     * Enabled: `running` is set before the loop is launched.
     */
    method StartChaosMonkey() returns (loopLaunched: bool)
      modifies this`running
      ensures loopLaunched == chaosEnabled
      ensures !chaosEnabled ==> running == old(running)
      ensures chaosEnabled ==> running
    {
      if !chaosEnabled {
        return false;
      }
      running := true;
      loopLaunched := true;
    }

    /** `stop()`. */
    method Stop()
      modifies this`running
      ensures !running
    {
      running := false;
    }

    /**
     * `executeExperiment(experiment)`: the counter goes up by one before the
     * experiment runs, whether or not `execute()` throws.
     */
    method ExecuteExperiment(experiment: Experiment, executeThrows: bool) returns (run: ExperimentRun)
      modifies this`experimentsExecuted
      ensures experimentsExecuted == old(experimentsExecuted) + 1
      ensures run == ExperimentRun(experimentsExecuted, experiment, !executeThrows)
    {
      experimentsExecuted := experimentsExecuted + 1;
      var experimentNumber := experimentsExecuted;
      run := ExperimentRun(experimentNumber, experiment, !executeThrows);
    }

    /**
     * `selectRandomExperiment()`, from a draw of `nextInt(enabled.size())`:
     * null exactly when no experiment is enabled, otherwise the enabled
     * experiment at the drawn position.
     */
    function SelectRandomExperiment(draw: nat): (r: Option<Experiment>)
      reads this
      requires EnabledExperiments(availableExperiments) != [] ==> draw < |EnabledExperiments(availableExperiments)|
      ensures r.None? <==> forall e :: e in availableExperiments ==> !e.IsEnabled()
      ensures r.Some? ==> r.value in availableExperiments && r.value.IsEnabled()
      ensures r.Some? ==> r.value == EnabledExperiments(availableExperiments)[draw]
    {
      var enabled := EnabledExperiments(availableExperiments);
      if enabled == [] then None else Some(enabled[draw])
    }

    /**
     * One iteration of `runChaosLoop()`: test the flag, sleep, test the flag
     * again, then select and execute. A stop() during the sleep makes the
     * iteration leave without selecting or executing anything.
     */
    method RunLoopIteration(waitDraw: nat, sleep: SleepOutcome, selectDraw: nat, executeThrows: bool)
      returns (it: Iteration)
      requires Valid()
      requires waitDraw < 2 * VariationMs
      requires selectDraw < |EnabledExperiments(availableExperiments)|
      modifies this`running, this`experimentsExecuted
      ensures Valid()
      ensures !old(running) ==> it == LoopExited && running == old(running)
      ensures old(running) ==> !it.LoopExited? && it.waitMs == RandomWaitTimeMs(waitDraw)
      ensures running == (old(running) && sleep != StoppedWhileSleeping)
      ensures it.Executed? <==> old(running) && sleep == SleptFully
      ensures it.Executed? ==> it.run.experiment == EnabledExperiments(Registry)[selectDraw]
                               && it.run.experiment.IsEnabled() && it.run.number == experimentsExecuted
      ensures experimentsExecuted == old(experimentsExecuted) + (if it.Executed? then 1 else 0)
    {
      if !running {
        return LoopExited;
      }
      var waitTime := RandomWaitTimeMs(waitDraw);
      if sleep == InterruptedWhileSleeping {
        return Interrupted(waitTime);
      }
      if sleep == StoppedWhileSleeping {
        Stop();
      }
      if !running {
        return StoppedOnWake(waitTime);
      }
      var experiment := SelectRandomExperiment(selectDraw);
      if experiment.None? {
        return NoneEnabled(waitTime);
      }
      var run := ExecuteExperiment(experiment.value, executeThrows);
      it := Executed(waitTime, run);
    }

    /**
     * `triggerExperiment(name)`: runs the first registered experiment whose
     * name equals `name` ignoring case, enabled or not; an unknown name leaves
     * the counter unchanged.
     */
    method TriggerExperiment(name: JString, executeThrows: bool) returns (run: Option<ExperimentRun>)
      modifies this`experimentsExecuted
      ensures run.Some? <==> FirstNamed(availableExperiments, name).Some?
      ensures run.Some? ==> run.value.experiment == availableExperiments[FirstNamed(availableExperiments, name).value]
                            && run.value.number == experimentsExecuted
      ensures experimentsExecuted == old(experimentsExecuted) + (if run.Some? then 1 else 0)
    {
      var index := FirstNamed(availableExperiments, name);
      if index.Some? {
        var r := ExecuteExperiment(availableExperiments[index.value], executeThrows);
        run := Some(r);
      } else {
        run := None;
      }
    }

    /** `getStats()`. */
    function GetStats(): (stats: ChaosStats)
      reads this
      ensures stats.running == running && stats.experimentsExecuted == experimentsExecuted
      ensures stats.totalExperiments == |availableExperiments|
      ensures stats.enabledExperiments == |EnabledExperiments(availableExperiments)|
      ensures stats.enabledExperiments <= stats.totalExperiments
      ensures Valid() ==> stats.totalExperiments == 3 && stats.enabledExperiments == 3
    {
      RegistryAllEnabled();
      ChaosStats(running, experimentsExecuted, |availableExperiments|, |EnabledExperiments(availableExperiments)|)
    }
  }

  /** With the fixed registry every experiment is enabled, so selection never yields null. */
  lemma RegistryAllEnabled()
    ensures EnabledExperiments(Registry) == Registry
  {
    assert Registry[1..][1..][1..] == [];
  }

  /**
   * What the three registered experiments report about themselves: their
   * names, their severities and their expected durations, each duration being
   * the experiment's own time plus its buffer.
   */
  lemma RegistryMetadata()
    ensures [Registry[0].Name(), Registry[1].Name(), Registry[2].Name()]
            == ["Latency Injection", "Exception Injection", "Resource Exhaustion"]
    ensures Registry[0].Severity() == ChaosExperiment.Medium && Registry[1].Severity() == ChaosExperiment.Medium
    ensures Registry[2].Severity() == ChaosExperiment.High
    ensures [Registry[0].ExpectedDurationMs(), Registry[1].ExpectedDurationMs(), Registry[2].ExpectedDurationMs()]
            == [6000, 4000, 10000]
  {
  }

  /** Triggering an experiment by its own name runs that experiment and no earlier one. */
  lemma TriggerFindsEachRegistered(i: nat)
    requires i < |Registry|
    ensures FirstNamed(Registry, Some(Registry[i].Name())) == Some(i)
  {
    var n := Registry[i].Name();
    assert EqualsIgnoreCase(n, Some(n));
    if i == 1 {
      assert !EqualsIgnoreCase(Registry[0].Name(), Some(n));
    } else if i == 2 {
      assert !CharEqualsIgnoreCase(Registry[1].Name()[0], n[0]);
      assert !EqualsIgnoreCase(Registry[0].Name(), Some(n));
      assert !EqualsIgnoreCase(Registry[1].Name(), Some(n));
    }
  }

  /** The manual trigger matches a registered name whatever the case of its letters. */
  lemma TriggerIgnoresCase()
    ensures FirstNamed(Registry, Some("latency injection")) == Some(0)
  {
    var n, l := LatencyInjection.Name, "latency injection";
    forall i | 0 <= i < |n|
      ensures CharEqualsIgnoreCase(n[i], l[i])
    {
    }
    assert EqualsIgnoreCase(Registry[0].Name(), Some(l));
  }

  /** The manual trigger finds nothing for null or for a name no experiment has. */
  lemma TriggerRefusesUnknown()
    ensures FirstNamed(Registry, None).None?
    ensures FirstNamed(Registry, Some("Latency")).None?
  {
  }
}
