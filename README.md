# Resilience workshop: chaos scheduler, payment and order services

This project models the core of a small Spring Boot service for practicing resilience patterns.

- **The chaos scheduler** (`ChaosMonkey`) runs chaos experiments at random intervals. It can also trigger one by name, and it reports statistics.
- **The two experiments it runs on live code:**
  - latency injection: sleeps a random time and classifies the measured delay;
  - exception injection: picks a failure category, makes up an error code and reports the reaction that category should provoke.
- **The payment service** simulates a gateway call. The call can time out. The service also has a fallback answer, an emergency path and a health probe.
- **The order service** checks inventory and projects an order onto a payment call.
- **The order controller** maps an order's status to an HTTP status and builds the error response.
- **The value objects** exchanged between these parts: payment and order requests and responses, and `PaymentException`.

Modelling conventions:

- A Java `String` that may be null is a `JString` (`Option<string>`). String concatenation writes a null as `"null"` (`JavaLang.Render`).
- Monetary `double` amounts are integers (`Model.Amount`).
- Every `Random` draw is a parameter. The precondition on the parameter is what `Random` promises: `nextInt(n)` is below `n`, and `nextDouble()` is a `real`.
- Every generated UUID and every clock reading is a parameter.
- A thrown `PaymentException` is the `Threw` case of `Exceptions.Outcome`.
- The scheduler is a class with the source's mutable state: the `running` flag, the executed-experiments counter and the experiment list.
- One pass of the background loop is a method. Another thread's `stop()` during the loop's sleep is an input of that method.

The source differs from the comments and the prose around it in three places. The model follows the code:

- **The scheduler's wait.** A comment promises 30–90 seconds between experiments. The code computes `30000 - 15000 + nextLong(30000)`, which lies in [15000, 45000) ms (`Chaos.RandomWaitTimeMs`).
- **The injected latency.** It is described as 1 to 5 seconds. `1000 + nextInt(4000)` lies in [1000, 4999] ms (`LatencyInjection.LatencyMs`).
- **The interrupt branch of `processPaymentAsync`.** It builds a FAILED response and a completed future holding it, then discards that future. The branch has no `return`, so the method as written does not compile. The model keeps the response as `FellThrough(discarded)` and does not turn it into the method's result.

## Model

| member | source | states |
|---|---|---|
| JavaLang.NullSafeEquals | src/main/java/ddia/example/ddia/model/PaymentRequest.java:70-71 | the null-safe comparison holds exactly when both are null or both hold equal strings |
| JavaLang.DecimalString | src/main/java/ddia/example/ddia/chaos/ExceptionInjectionExperiment.java:136 | an int appended to a string is written as one or more decimal digits, with no leading zero unless it is 0 |
| JavaLang.ParseDecimalString | src/main/java/ddia/example/ddia/chaos/ExceptionInjectionExperiment.java:136 | reading the decimal rendering back gives the number again |
| JavaLang.FourDigitDecimal | src/main/java/ddia/example/ddia/chaos/ExceptionInjectionExperiment.java:135 | every code in 1000–9999 is written with exactly four digits |
| Model.PaymentRequest.Equals | src/main/java/ddia/example/ddia/model/PaymentRequest.java:62-72 | `equals` is false for null and otherwise holds exactly when orderId, amount and cardToken all agree (null-safely) |
| Model.EmptyPaymentRequest | src/main/java/ddia/example/ddia/model/PaymentRequest.java:38-42 | the deserialization constructor leaves both strings null and the amount 0 |
| Model.MaskedCardToken | src/main/java/ddia/example/ddia/model/PaymentRequest.java:57-59 | `toString` shows a null token as "null", and otherwise at most the token's first 8 characters followed by "***", never more than 11 characters |
| Model.MaskHidesTail | src/main/java/ddia/example/ddia/model/PaymentRequest.java:59 | two tokens that share their first 8 characters are masked identically |
| Model.BasicPaymentResponse | src/main/java/ddia/example/ddia/model/PaymentResponse.java:29-31 | the four-argument constructor keeps its arguments and has no error message and no gateway response |
| Model.PaymentResponseWithError | src/main/java/ddia/example/ddia/model/PaymentResponse.java:36-39 | the five-argument constructor keeps its arguments, error message included, and has no gateway response |
| Model.EmptyPaymentResponse | src/main/java/ddia/example/ddia/model/PaymentResponse.java:57-64 | the no-argument constructor has a null status, so it is neither successful, failed nor pending |
| Model.PaymentStatusClasses | src/main/java/ddia/example/ddia/model/PaymentResponse.java:93-109 | successful, failed and pending are pairwise exclusive; each of the four status constants falls in its class; a response is in some class exactly when its status is one of the four |
| Model.PaymentResponse.Equals | src/main/java/ddia/example/ddia/model/PaymentResponse.java:117-132 | `equals` is false for null and otherwise holds exactly when all six fields agree (null-safely) |
| Model.OrderRequest.Equals | src/main/java/ddia/example/ddia/model/OrderRequest.java:98-112 | `equals` is false for null and otherwise holds exactly when all seven fields agree (null-safely) |
| Model.BasicOrderRequest | src/main/java/ddia/example/ddia/model/OrderRequest.java:47-49 | the four-argument constructor keeps its arguments and defaults productId to null, quantity to 1 and shippingAddress to null |
| Model.EmptyOrderRequest | src/main/java/ddia/example/ddia/model/OrderRequest.java:54-62 | the no-argument constructor has every string null and quantity and amount 0 |
| Model.OrderResponse.Equals | src/main/java/ddia/example/ddia/model/OrderResponse.java:124-139 | `equals` is false for null and otherwise holds exactly when all seven fields agree (null-safely) |
| Model.BasicOrderResponse | src/main/java/ddia/example/ddia/model/OrderResponse.java:31-33 | the four-argument constructor keeps its arguments, stamps the current time, and sets amount 0 and no tracking number |
| Model.EmptyOrderResponse | src/main/java/ddia/example/ddia/model/OrderResponse.java:52-60 | the no-argument constructor has a null status, so it is in no status class |
| Model.OrderStatusClasses | src/main/java/ddia/example/ddia/model/OrderResponse.java:93-116 | confirmed, failed (FAILED or ERROR), pending and cancelled are pairwise exclusive; each of the five constants falls in its class; a response is in some class exactly when its status is one of the five |
| Exceptions.WithMessage | src/main/java/ddia/example/ddia/exception/PaymentException.java:19-23 | the message-only constructor leaves errorCode, orderId and cause null |
| Exceptions.WithCause | src/main/java/ddia/example/ddia/exception/PaymentException.java:28-32 | the message-and-cause constructor keeps the cause and leaves errorCode and orderId null |
| Exceptions.Detailed | src/main/java/ddia/example/ddia/exception/PaymentException.java:37-41 | the detailed constructor stores exactly the given errorCode and orderId |
| Exceptions.DetailedWithCause | src/main/java/ddia/example/ddia/exception/PaymentException.java:46-50 | the detailed constructor with a cause stores all four values as given |
| Exceptions.ToString | src/main/java/ddia/example/ddia/exception/PaymentException.java:60-73 | building the text piece by piece yields the message part, then each optional segment, then "}" |
| Exceptions.DescriptionFrame | src/main/java/ddia/example/ddia/exception/PaymentException.java:62-71 | the text always starts with "PaymentException{message='…'" and ends with "}" |
| Exceptions.ErrorCodeSegmentIff | src/main/java/ddia/example/ddia/exception/PaymentException.java:65-67 | right after the message, ", errorCode='" appears exactly when the error code is non-null |
| Exceptions.OrderIdSegmentIff | src/main/java/ddia/example/ddia/exception/PaymentException.java:68-70 | right after the message and any error-code segment, ", orderId='" appears exactly when the order id is non-null |
| Exceptions.PlainExceptionRendering | src/main/java/ddia/example/ddia/exception/PaymentException.java:19-32 | the exceptions built without an errorCode and orderId render with neither optional segment |
| ChaosExperiment.Ordinal | src/main/java/ddia/example/ddia/chaos/ChaosExperiment.java:73-77 | every severity sits at its own position in the declaration order |
| ChaosExperiment.SeverityScale | src/main/java/ddia/example/ddia/chaos/ChaosExperiment.java:73-77 | there are exactly three severities, each listed once, LOW before MEDIUM before HIGH |
| ChaosExperiment.InterfaceDefaults | src/main/java/ddia/example/ddia/chaos/ChaosExperiment.java:48-68 | an experiment that overrides nothing lasts 5000 ms, has MEDIUM severity and is enabled |
| LatencyInjection.Severity | src/main/java/ddia/example/ddia/chaos/LatencyInjectionExperiment.java:41-44 | the override answers MEDIUM, the same as the interface default |
| LatencyInjection.ExpectedDurationMs | src/main/java/ddia/example/ddia/chaos/LatencyInjectionExperiment.java:46-49 | the expected duration is 6000 ms, longer than any latency the experiment can inject |
| LatencyInjection.LatencyMs | src/main/java/ddia/example/ddia/chaos/LatencyInjectionExperiment.java:61 | the injected latency lies in [1000, 4999] ms, below the maximum |
| LatencyInjection.ClassifyDelay | src/main/java/ddia/example/ddia/chaos/LatencyInjectionExperiment.java:75-79 | the delay is high exactly when above 3000 ms, moderate exactly when in (2000, 3000], and unremarked otherwise |
| LatencyInjection.Execute | src/main/java/ddia/example/ddia/chaos/LatencyInjectionExperiment.java:52-85 | a run is skipped exactly when the draw exceeds 0.7; otherwise it injects a latency in [1000, 4999] ms and classifies the measured delay unless the sleep is interrupted |
| ExceptionInjection.Severity | src/main/java/ddia/example/ddia/chaos/ExceptionInjectionExperiment.java:55-58 | the override answers MEDIUM, the same as the interface default |
| ExceptionInjection.ExpectedDurationMs | src/main/java/ddia/example/ddia/chaos/ExceptionInjectionExperiment.java:60-63 | the expected duration is 4000 ms, longer than any simulated wait |
| ExceptionInjection.ShouldInjectIsNotSkip | src/main/java/ddia/example/ddia/chaos/ExceptionInjectionExperiment.java:149-151 | the public probability test (`<= 0.6`) is exactly the negation of the skip test in `execute()` (`> 0.6`) |
| ExceptionInjection.SelectExceptionType | src/main/java/ddia/example/ddia/chaos/ExceptionInjectionExperiment.java:142-144 | the random exception type is always one of the eight known types |
| ExceptionInjection.SimulationSleepMs | src/main/java/ddia/example/ddia/chaos/ExceptionInjectionExperiment.java:84 | the simulated wait is below 3000 ms |
| ExceptionInjection.GenerateErrorCode | src/main/java/ddia/example/ddia/chaos/ExceptionInjectionExperiment.java:132-137 | the error code is a known prefix, '-', and exactly four digits with no leading zero; reading it back gives that prefix and a number in [1000, 9999] |
| ExceptionInjection.ErrorCodeReadsBack | src/main/java/ddia/example/ddia/chaos/ExceptionInjectionExperiment.java:136 | splitting prefix + "-" + number at the first '-' gives back the prefix and the number |
| ExceptionInjection.LogFailureImpact | src/main/java/ddia/example/ddia/chaos/ExceptionInjectionExperiment.java:102-127 | the i-th known type gets the i-th reaction, and the default branch is taken exactly for a type outside the list |
| ExceptionInjection.ImpactsAreDistinct | src/main/java/ddia/example/ddia/chaos/ExceptionInjectionExperiment.java:102-127 | two different known types never get the same reaction |
| ExceptionInjection.SimulateSpecificException | src/main/java/ddia/example/ddia/chaos/ExceptionInjectionExperiment.java:156-159 | a manual simulation reports a specific reaction exactly for the eight known types, and the i-th known type gets the i-th reaction |
| ExceptionInjection.Execute | src/main/java/ddia/example/ddia/chaos/ExceptionInjectionExperiment.java:66-97 | a run is skipped exactly when the draw exceeds 0.6; otherwise the type, the error code and the wait are the ones drawn (a known type, a prefix-dash-four-digit code, under 3000 ms); unless interrupted, it reports that type's specific reaction |
| Chaos.EnabledExperiments | src/main/java/ddia/example/ddia/chaos/ChaosMonkey.java:142-144 | the filter keeps exactly the enabled experiments, each as many times as it occurs, never lengthens the list, and returns the list unchanged when every experiment is enabled |
| Chaos.FirstNamed | src/main/java/ddia/example/ddia/chaos/ChaosMonkey.java:180-183 | the lookup finds the first experiment whose name equals the argument ignoring case, and finds nothing exactly when no experiment matches |
| Chaos.RandomWaitTimeMs | src/main/java/ddia/example/ddia/chaos/ChaosMonkey.java:157-163 | the wait between experiments lies in [15000, 45000) ms, offset from 15000 by the draw |
| Chaos.ChaosMonkey.constructor | src/main/java/ddia/example/ddia/chaos/ChaosMonkey.java:48-50 | a new scheduler is stopped, has executed nothing and holds the three experiments |
| Chaos.ChaosMonkey.InitializeExperiments | src/main/java/ddia/example/ddia/chaos/ChaosMonkey.java:168-174 | latency, exception and resource experiments are appended in that order |
| Chaos.ChaosMonkey.StartChaosMonkey | src/main/java/ddia/example/ddia/chaos/ChaosMonkey.java:55-76 | when chaos is disabled nothing changes and no loop is launched; when enabled, `running` is set and the loop is launched |
| Chaos.ChaosMonkey.Stop | src/main/java/ddia/example/ddia/chaos/ChaosMonkey.java:196-199 | after `stop()` the scheduler is not running |
| Chaos.ChaosMonkey.ExecuteExperiment | src/main/java/ddia/example/ddia/chaos/ChaosMonkey.java:114-136 | the counter goes up by exactly one whether or not the experiment throws, and the run carries the new count |
| Chaos.ChaosMonkey.SelectRandomExperiment | src/main/java/ddia/example/ddia/chaos/ChaosMonkey.java:141-152 | selection yields null exactly when no experiment is enabled, and otherwise the enabled experiment at the drawn position |
| Chaos.ChaosMonkey.RunLoopIteration | src/main/java/ddia/example/ddia/chaos/ChaosMonkey.java:81-109 | a stopped scheduler leaves the loop; otherwise it waits 15–45 s, and an experiment runs (counter +1) exactly when the sleep completes and no stop() happened during it |
| Chaos.ChaosMonkey.TriggerExperiment | src/main/java/ddia/example/ddia/chaos/ChaosMonkey.java:179-191 | the first experiment matching the name ignoring case runs, enabled or not; an unknown name leaves the counter unchanged |
| Chaos.ChaosMonkey.GetStats | src/main/java/ddia/example/ddia/chaos/ChaosMonkey.java:204-211 | the snapshot reports the flag, the counter, the number of experiments and the number of enabled ones (never more than the total); for the registry both are 3 |
| Chaos.RegistryAllEnabled | src/main/java/ddia/example/ddia/chaos/ChaosMonkey.java:142-151 | no registered experiment overrides `isEnabled`, so the enabled list is the whole registry and selection never yields null |
| Chaos.RegistryMetadata | src/main/java/ddia/example/ddia/chaos/ChaosMonkey.java:168-171 | the registered experiments are named Latency Injection, Exception Injection and Resource Exhaustion, have severities MEDIUM, MEDIUM and HIGH, and last 6000, 4000 and 10000 ms |
| Chaos.TriggerFindsEachRegistered | src/main/java/ddia/example/ddia/chaos/ChaosMonkey.java:179-183 | triggering any registered experiment by its own name selects that experiment |
| Chaos.TriggerIgnoresCase | src/main/java/ddia/example/ddia/chaos/ChaosMonkey.java:181 | "latency injection" in lower case triggers the latency experiment |
| Chaos.TriggerRefusesUnknown | src/main/java/ddia/example/ddia/chaos/ChaosMonkey.java:180-190 | a null name, and a name that is only a prefix of a registered one, trigger nothing |
| PaymentService.SimulateNetworkDelay | src/main/java/ddia/example/ddia/service/PaymentService.java:114-122 | the delay lies in [100, 299] ms; an interrupted sleep throws a message-only PaymentException "Payment processing interrupted" |
| PaymentService.GatewayTimeout | src/main/java/ddia/example/ddia/service/PaymentService.java:43-46 | the simulated failure carries code GATEWAY_TIMEOUT, the request's order id and the message naming that order |
| PaymentService.CreateSuccessfulPaymentResponse | src/main/java/ddia/example/ddia/service/PaymentService.java:134-136 | the response is successful (COMPLETED), keeps the request's amount, has no error and names MOCK_GATEWAY |
| PaymentService.ProcessPayment | src/main/java/ddia/example/ddia/service/PaymentService.java:38-50 | an interrupt throws; otherwise a failure draw below 0.3 throws the gateway timeout; a response is returned exactly in the remaining case, and it is the response `createSuccessfulPaymentResponse` builds: successful, with the request's amount, no error and MOCK_GATEWAY |
| PaymentService.FallbackPayment | src/main/java/ddia/example/ddia/service/PaymentService.java:58-69 | the fallback is pending (PENDING_MANUAL_REVIEW), never successful or failed; its id starts "FALLBACK-"; it keeps the amount and carries the manual-processing message and FALLBACK_GATEWAY |
| PaymentService.EmergencyDelayMs | src/main/java/ddia/example/ddia/service/PaymentService.java:78 | the emergency sleep lies in [50, 149] ms |
| PaymentService.ProcessEmergencyPayment | src/main/java/ddia/example/ddia/service/PaymentService.java:75-94 | it throws exactly when interrupted, with code EMERGENCY_INTERRUPTED and the request's order id; otherwise the response is successful, keeps the amount, has no error, id "EMERGENCY-" + the success id and EMERGENCY_GATEWAY |
| PaymentService.IsHealthy | src/main/java/ddia/example/ddia/service/PaymentService.java:100-109 | the probe is healthy exactly when not interrupted and the draw exceeds 0.1 |
| PaymentService.EmergencyIsNeverFallback | src/main/java/ddia/example/ddia/service/PaymentService.java:75-89 | an emergency response never has the manual-review status and is never equal to any fallback response |
| PaymentService.ProcessPaymentIsNeverFallback | src/main/java/ddia/example/ddia/service/PaymentService.java:38-69 | a response of `processPayment` itself is never the fallback response |
| OrderService.ToPaymentRequest | src/main/java/ddia/example/ddia/service/OrderService.java:73 | the payment request copies the order's id, amount and card token |
| OrderService.ProjectionIgnoresOrderOnlyFields | src/main/java/ddia/example/ddia/service/OrderService.java:73 | two orders project to the same payment request exactly when they agree on id, amount and card token |
| OrderService.ProjectionRespectsEquals | src/main/java/ddia/example/ddia/service/OrderService.java:73 | orders that are `equals` project to payment requests that are `equals` |
| OrderService.FailedPaymentResponse | src/main/java/ddia/example/ddia/service/OrderService.java:79-85 | the interrupt handler's response is FAILED (only failed), has id "FAILED-" + uuid, and keeps the order's amount and the exception message |
| OrderService.ProcessPaymentAsync | src/main/java/ddia/example/ddia/service/OrderService.java:72-88 | the service's response is passed through unchanged, a PaymentException propagates unchanged, and exactly an interrupt produces the (discarded) FAILED response |
| OrderService.FailedResponseIsOnlyFailed | src/main/java/ddia/example/ddia/service/OrderService.java:79-85 | the interrupt handler's response is never equal to a successful or pending response |
| OrderService.InventoryDelayMs | src/main/java/ddia/example/ddia/service/OrderService.java:50 | the inventory delay lies in [2000, 4999] ms |
| OrderService.CheckInventory | src/main/java/ddia/example/ddia/service/OrderService.java:48-64 | inventory is available exactly when not interrupted and the draw is below 0.7; an interrupt answers false |
| OrderController.MapOrderStatusToHttpStatus | src/main/java/ddia/example/ddia/controller/OrderController.java:163-172 | CONFIRMED→200, PENDING→202, FAILED→400, ERROR→500, CANCELLED→410, any other string→500, only CONFIRMED gives 200, and a null status throws |
| OrderController.HttpStatusFollowsStatusClass | src/main/java/ddia/example/ddia/controller/OrderController.java:163-172 | the HTTP status agrees with the status classes: a failed order gets 400 or 500, and only confirmed and pending orders get a 2xx |
| OrderController.ErrorResponse | src/main/java/ddia/example/ddia/controller/OrderController.java:59-73 | the error response has status ERROR (so it counts as failed), no payment id, the message "Order processing failed: " + the caught throwable's message, and the request's id and amount |
| OrderController.SyncErrorResponse | src/main/java/ddia/example/ddia/controller/OrderController.java:102-107 | the synchronous error response has status ERROR, no payment id, amount 0 and the message "Synchronous order processing failed: " + the caught throwable's message (on this path an `ExecutionException`, whose message is its cause's `toString()`) |
| OrderController.ErrorResponsesMapToServerError | src/main/java/ddia/example/ddia/controller/OrderController.java:59-73 | the status of either error response maps to 500, the code both handlers send |
| OrderController.UsedMemory | src/main/java/ddia/example/ddia/controller/OrderController.java:216 | used memory is total minus free, and lies between 0 and total when free does |

## Left out

- The circuit breaker and retry around `processPayment` are annotation-driven proxies of a resilience library. That library is not part of this model, so neither is when the fallback is invoked. `FallbackPayment` is modelled as a plain function.
- The bulkhead thread pools are configuration of that same library.
- `OrderService.processOrder` is not modelled. It starts two futures, then has no join and no return. The source has no rule deciding CONFIRMED or FAILED, so none is invented.
- The two controller endpoints that call `processOrder` pass it an `OrderRequest`, while it takes a `PaymentRequest`. Their success path is therefore not modelled. Only the status mapping and the error responses they build are.
- The health, status and stats endpoints are not modelled, except for `getUsedMemory`:
  - the health endpoint calls an `orderService.isHealthy` that does not exist;
  - the status endpoint returns a constant text;
  - the stats endpoint reads the Runtime (processors, memory, thread count) and the clock.
- `ResourceExhaustionExperiment.execute()` is not modelled: memory allocation, CPU-burning threads and floating-point work. Its name, severity and duration are.
- Threads, sleeps, logging, emoji in log text, `System.currentTimeMillis()`, `UUID.randomUUID()` and `Random`:
  - each random value, clock reading and UUID is a parameter;
  - a sleep is reduced to whether it was interrupted;
  - a log line is reduced to the classification it reports.
- The scheduler's background thread is not modelled as a thread. One pass of its loop is `RunLoopIteration`. Its generic `catch (Exception)` branch is unreachable in the model, because `executeExperiment` catches an experiment's exceptions itself.
- `toString` of the request and response types is not modelled, beyond the card-token mask. `%.2f` formatting of doubles is not modelled. `hashCode` is not modelled.
- Model.Amount: `double` amounts are exact integers. `Double.compare` on NaN and signed zeros, and fractional amounts, are not modelled.
- The `getClass() != o.getClass()` test of each `equals` has no counterpart. The argument is either null or a value of the same type.
- Model.MaskedCardToken: a Java `String` counts UTF-16 code units, while the model counts characters (Unicode scalar values). For a token with characters outside the Basic Multilingual Plane, `substring(0, Math.min(8, length()))` can keep fewer characters than the model, or split a surrogate pair.
- JavaLang.EqualsIgnoreCase: only the ASCII letters are case-mapped. `String.equalsIgnoreCase` also folds the case of non-ASCII letters.
- ExceptionInjection.SimulateSpecificException: a null argument, on which the Java `switch` throws a NullPointerException, is not an input. The parameter is a non-null string.
- Chaos.ChaosMonkey.ExecuteExperiment: the counter is an unbounded natural. The source's `AtomicInteger` wraps to a negative value after 2^31 - 1 increments.
- Chaos.ChaosMonkey.GetStats: the counts are unbounded naturals, not `int`.
- The `app.chaos.interval` setting is read by the source but never used, so it is not modelled.
- LatencyInjection.Execute: the delay measured after an interrupted sleep is only logged, so the model does not carry it.
- `HealthResponse` and `ServiceStats` are plain holders of their constructor arguments; only `getUsedMemory` computes anything.
