/**
 * The exception-injection chaos experiment: with some probability it picks
 * one of eight failure categories, makes up an error code, waits a random
 * time and reports the reaction that category should provoke. Nothing is
 * thrown into live traffic. Each random draw is a parameter.
 */
module ExceptionInjection {
  import opened JavaLang
  import ChaosExperiment

  /** EXCEPTION_TYPES. */
  const ExceptionTypes: seq<string> := [
    "Database Connection Failed",
    "Network Timeout",
    "Service Unavailable",
    "Authentication Failed",
    "Rate Limit Exceeded",
    "Memory Allocation Error",
    "Disk Space Full",
    "External API Error"
  ]

  /** The prefixes `generateErrorCode` chooses from. */
  const ErrorCodePrefixes: seq<string> := ["ERR", "FAIL", "EX", "SYS"]

  /** Injection is skipped when the draw from [0, 1) exceeds this value. */
  const InjectionProbability: real := 0.6
  const SimulationDurationMs: nat := 3000

  const Name := "Exception Injection"
  const Description := "Simulates various system failures and exceptions to test error handling and recovery mechanisms"

  /** `getSeverity()`: overridden, with the same value as the interface default. */
  function Severity(): (r: ChaosExperiment.Severity)
    ensures r == ChaosExperiment.Medium && r == ChaosExperiment.DefaultSeverity()
  {
    ChaosExperiment.Medium
  }

  /** `getExpectedDurationMs()`: the simulation time plus a one-second buffer. */
  function ExpectedDurationMs(): (r: nat)
    ensures r == 4000
    ensures forall draw: nat :: draw < SimulationDurationMs ==> SimulationSleepMs(draw) < r
  {
    SimulationDurationMs + 1000
  }

  /** `shouldInjectException()`. */
  predicate ShouldInjectException(injectionDraw: real)
  {
    injectionDraw <= InjectionProbability
  }

  /** The early-return test at the top of `execute()`. */
  predicate SkipsInjection(injectionDraw: real)
  {
    injectionDraw > InjectionProbability
  }

  /** The public probability test and the test `execute()` applies are exact complements. */
  lemma ShouldInjectIsNotSkip(injectionDraw: real)
    ensures ShouldInjectException(injectionDraw) <==> !SkipsInjection(injectionDraw)
  {
  }

  /** `EXCEPTION_TYPES[random.nextInt(EXCEPTION_TYPES.length)]`, as in `execute()` and `getRandomExceptionType()`. */
  function SelectExceptionType(draw: nat): (r: string)
    requires draw < |ExceptionTypes|
    ensures r in ExceptionTypes
  {
    ExceptionTypes[draw]
  }

  /** How long the simulation sleeps, from a draw of `nextInt(SIMULATION_DURATION_MS)`. */
  function SimulationSleepMs(draw: nat): (r: nat)
    requires draw < SimulationDurationMs
    ensures r < 3000
  {
    draw
  }

  // ---------------------------------------------------------------------------
  // Error codes

  /** An error code taken apart: its prefix and its number. */
  datatype ErrorCode = ErrorCode(prefix: string, number: nat)

  /** Reads an error code back: the text before the first '-', and the digits after it. */
  function ParseErrorCode(s: string): Option<ErrorCode>
  {
    match IndexOf(s, '-')
    case None => None
    case Some(i) =>
      var digits := s[i + 1..];
      if digits != [] && AllDigits(digits) then Some(ErrorCode(s[..i], ParseDecimal(digits))) else None
  }

  /**
   * `generateErrorCode()`: prefix, '-', and a number in [1000, 9999], which
   * always has four digits. Reading the code back gives the prefix and number.
   */
  function GenerateErrorCode(prefixDraw: nat, numberDraw: nat): (r: string)
    requires prefixDraw < |ErrorCodePrefixes| && numberDraw < 9000
    ensures var p := ErrorCodePrefixes[prefixDraw];
            |r| == |p| + 5 && r[..|p|] == p && r[|p|] == '-' && AllDigits(r[|p| + 1..]) && r[|p| + 1] != '0'
    ensures ParseErrorCode(r) == Some(ErrorCode(ErrorCodePrefixes[prefixDraw], 1000 + numberDraw))
    ensures 1000 <= ParseErrorCode(r).value.number <= 9999
  {
    var prefix := ErrorCodePrefixes[prefixDraw];
    var number := 1000 + numberDraw;
    var r := prefix + "-" + DecimalString(number);
    FourDigitDecimal(number);
    ErrorCodeReadsBack(prefix, number);
    assert r[..|prefix|] == prefix && r[|prefix| + 1..] == DecimalString(number);
    r
  }

  lemma ErrorCodeReadsBack(prefix: string, number: nat)
    requires prefix in ErrorCodePrefixes
    ensures ParseErrorCode(prefix + "-" + DecimalString(number)) == Some(ErrorCode(prefix, number))
  {
    var s := prefix + "-" + DecimalString(number);
    assert '-' !in prefix;
    IndexOfAfterPrefix(prefix, '-', DecimalString(number));
    assert s[..|prefix|] == prefix;
    assert s[|prefix| + 1..] == DecimalString(number);
    ParseDecimalString(number);
  }

  // ---------------------------------------------------------------------------
  // Failure impact

  /** The reaction `logFailureImpact` reports for an exception type. */
  datatype FailureImpact =
    | DatabaseFailure
    | NetworkTimeout
    | ServiceUnavailable
    | AuthenticationFailure
    | RateLimitHit
    | MemoryPressure
    | DiskSpaceCritical
    | ExternalApiFailure
    | UnknownType
  {
    function Message(): string
    {
      match this
      case DatabaseFailure => "Database failure - Circuit breakers should open, fallbacks should activate"
      case NetworkTimeout => "Network timeout - Retry mechanisms should be triggered"
      case ServiceUnavailable => "Service unavailable - Load balancers should route to healthy instances"
      case AuthenticationFailure => "Authentication failure - Security fallbacks should activate"
      case RateLimitHit => "Rate limit hit - Backoff mechanisms should engage"
      case MemoryPressure => "Memory pressure - Garbage collection and resource cleanup needed"
      case DiskSpaceCritical => "Disk space critical - Log rotation and cleanup should trigger"
      case ExternalApiFailure => "External API failure - Circuit breakers and caching should help"
      case UnknownType => "Unknown exception type - General error handling should apply"
    }
  }

  /** The impact of each entry of EXCEPTION_TYPES, position by position. */
  const KnownImpacts: seq<FailureImpact> := [
    DatabaseFailure, NetworkTimeout, ServiceUnavailable, AuthenticationFailure,
    RateLimitHit, MemoryPressure, DiskSpaceCritical, ExternalApiFailure
  ]

  /** `logFailureImpact(exceptionType)`: the switch over the eight known types. */
  function LogFailureImpact(exceptionType: string): (r: FailureImpact)
    ensures r == UnknownType <==> exceptionType !in ExceptionTypes
    ensures forall i :: 0 <= i < |ExceptionTypes| && exceptionType == ExceptionTypes[i] ==> r == KnownImpacts[i]
  {
    match exceptionType
    case "Database Connection Failed" => DatabaseFailure
    case "Network Timeout" => NetworkTimeout
    case "Service Unavailable" => ServiceUnavailable
    case "Authentication Failed" => AuthenticationFailure
    case "Rate Limit Exceeded" => RateLimitHit
    case "Memory Allocation Error" => MemoryPressure
    case "Disk Space Full" => DiskSpaceCritical
    case "External API Error" => ExternalApiFailure
    case _ => UnknownType
  }

  /** Each known type has its own reaction. */
  lemma ImpactsAreDistinct(i: nat, j: nat)
    requires i < |ExceptionTypes| && j < |ExceptionTypes| && i != j
    ensures LogFailureImpact(ExceptionTypes[i]) != LogFailureImpact(ExceptionTypes[j])
  {
    assert LogFailureImpact(ExceptionTypes[i]) == KnownImpacts[i];
    assert LogFailureImpact(ExceptionTypes[j]) == KnownImpacts[j];
  }

  /** `simulateSpecificException(exceptionType)`: reports the impact of the given type. */
  function SimulateSpecificException(exceptionType: string): (r: FailureImpact)
    ensures r != UnknownType <==> exceptionType in ExceptionTypes
    ensures forall i :: 0 <= i < |ExceptionTypes| && exceptionType == ExceptionTypes[i] ==> r == KnownImpacts[i]
  {
    LogFailureImpact(exceptionType)
  }

  // ---------------------------------------------------------------------------
  // execute()

  /** How one run of `execute()` ends; none of them is an exception. */
  datatype Outcome =
    | Skipped
    | Simulated(exceptionType: string, errorCode: string, sleepMs: nat, impact: FailureImpact)
    | Interrupted(exceptionType: string, errorCode: string, sleepMs: nat)

  /** `execute()`; `interrupted` says whether the simulated wait was interrupted. */
  function Execute(injectionDraw: real, typeDraw: nat, prefixDraw: nat, numberDraw: nat, sleepDraw: nat,
                   interrupted: bool): (r: Outcome)
    requires typeDraw < |ExceptionTypes| && prefixDraw < |ErrorCodePrefixes|
    requires numberDraw < 9000 && sleepDraw < SimulationDurationMs
    ensures r.Skipped? <==> !ShouldInjectException(injectionDraw)
    ensures r.Interrupted? <==> ShouldInjectException(injectionDraw) && interrupted
    ensures !r.Skipped? ==> r.exceptionType in ExceptionTypes && r.sleepMs < SimulationDurationMs
    ensures !r.Skipped? ==> ParseErrorCode(r.errorCode) == Some(ErrorCode(ErrorCodePrefixes[prefixDraw], 1000 + numberDraw))
    ensures !r.Skipped? ==> r.exceptionType == SelectExceptionType(typeDraw) && r.sleepMs == SimulationSleepMs(sleepDraw)
    ensures !r.Skipped? ==> r.errorCode == GenerateErrorCode(prefixDraw, numberDraw)
    ensures r.Simulated? ==> r.impact != UnknownType && r.impact == LogFailureImpact(r.exceptionType)
  {
    if SkipsInjection(injectionDraw) then Skipped
    else
      var exceptionType := SelectExceptionType(typeDraw);
      var errorCode := GenerateErrorCode(prefixDraw, numberDraw);
      var sleepMs := SimulationSleepMs(sleepDraw);
      if interrupted then Interrupted(exceptionType, errorCode, sleepMs)
      else Simulated(exceptionType, errorCode, sleepMs, LogFailureImpact(exceptionType))
  }
}
