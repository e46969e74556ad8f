/**
 * The payment service's own logic: the simulated gateway call, the
 * fallback, emergency and successful responses, and the health probe. The
 * circuit breaker and retry that wrap `processPayment` belong to a library
 * and are not part of this module. Random draws, generated UUIDs and clock
 * readings are parameters.
 */
module PaymentService {
  import opened JavaLang
  import opened Model
  import opened Exceptions

  /** A payment fails when the failure draw from [0, 1) is below this rate. */
  const FailureRate: real := 0.3

  const MockGateway := "MOCK_GATEWAY"
  const FallbackGateway := "FALLBACK_GATEWAY"
  const EmergencyGateway := "EMERGENCY_GATEWAY"
  const FallbackMessage := "Payment service unavailable. Order queued for manual processing."

  /** `simulateNetworkDelay()`, from a draw of `nextInt(200)`; an interrupted sleep becomes a PaymentException. */
  function SimulateNetworkDelay(delayDraw: nat, interrupted: bool): (r: Outcome<nat>)
    requires delayDraw < 200
    ensures r.Returned? <==> !interrupted
    ensures r.Returned? ==> 100 <= r.value <= 299
    ensures r.Threw? ==> r.exception == WithMessage(Some("Payment processing interrupted"))
  {
    var delay := 100 + delayDraw;
    if interrupted then Threw(WithMessage(Some("Payment processing interrupted"))) else Returned(delay)
  }

  /** `shouldSimulateFailure()`. */
  predicate ShouldSimulateFailure(failureDraw: real)
  {
    failureDraw < FailureRate
  }

  /** The exception a simulated gateway failure throws. */
  function GatewayTimeout(request: PaymentRequest): (e: PaymentException)
    ensures e.errorCode == Some("GATEWAY_TIMEOUT") && e.orderId == request.orderId
    ensures e.message == Some("Payment gateway timeout for order: " + Render(request.orderId))
  {
    Detailed(Some("Payment gateway timeout for order: " + Render(request.orderId)), Some("GATEWAY_TIMEOUT"),
             request.orderId)
  }

  /** `createSuccessfulPaymentResponse(request)`, with the generated `uuid` and the clock `now`. */
  function CreateSuccessfulPaymentResponse(request: PaymentRequest, uuid: string, now: int): (r: PaymentResponse)
    ensures r.IsSuccessful() && !r.IsPending() && !r.IsFailed()
    ensures r.transactionId == Some(uuid) && r.amount == request.amount && r.timestamp == now
    ensures r.errorMessage.None? && r.gatewayResponse == Some(MockGateway)
  {
    PaymentResponse(Some(uuid), request.amount, Some(PaymentCompleted), now, None, Some(MockGateway))
  }

  /**
   * `processPayment(request)` as the method body has it: the network delay,
   * then either a simulated gateway timeout or a successful response.
   */
  function ProcessPayment(request: PaymentRequest, delayDraw: nat, interrupted: bool, failureDraw: real,
                          uuid: string, now: int): (r: Outcome<PaymentResponse>)
    requires delayDraw < 200
    ensures interrupted ==> r == Threw(WithMessage(Some("Payment processing interrupted")))
    ensures !interrupted && ShouldSimulateFailure(failureDraw) ==> r == Threw(GatewayTimeout(request))
    ensures r.Returned? <==> !interrupted && !ShouldSimulateFailure(failureDraw)
    ensures r.Returned? ==> r.value == CreateSuccessfulPaymentResponse(request, uuid, now)
    ensures r.Returned? ==> r.value.IsSuccessful() && r.value.amount == request.amount
                            && r.value.errorMessage.None? && r.value.gatewayResponse == Some(MockGateway)
  {
    match SimulateNetworkDelay(delayDraw, interrupted)
    case Threw(e) => Threw(e)
    case Returned(_) =>
      if ShouldSimulateFailure(failureDraw) then Threw(GatewayTimeout(request))
      else Returned(CreateSuccessfulPaymentResponse(request, uuid, now))
  }

  /** `fallbackPayment(request, ex)`: queue the order for manual review; `ex` is not consulted. */
  function FallbackPayment(request: PaymentRequest, ex: PaymentException, uuid: string, now: int): (r: PaymentResponse)
    ensures r.status == Some(PaymentPendingManualReview) && r.IsPending() && !r.IsSuccessful() && !r.IsFailed()
    ensures r.transactionId.Some? && "FALLBACK-" <= r.transactionId.value
    ensures r.amount == request.amount && r.timestamp == now
    ensures r.errorMessage == Some(FallbackMessage) && r.gatewayResponse == Some(FallbackGateway)
  {
    PaymentResponse(Some("FALLBACK-" + uuid), request.amount, Some(PaymentPendingManualReview), now,
                    Some(FallbackMessage), Some(FallbackGateway))
  }

  /** The emergency path's shorter sleep, from a draw of `nextInt(100)`. */
  function EmergencyDelayMs(draw: nat): (r: nat)
    requires draw < 100
    ensures 50 <= r <= 149
  {
    50 + draw
  }

  /**
   * `processEmergencyPayment(request)`: a successful response re-labelled for
   * the emergency gateway, or, when the sleep is interrupted, a PaymentException.
   */
  function ProcessEmergencyPayment(request: PaymentRequest, interrupted: bool, uuid: string, now: int)
    : (r: Outcome<PaymentResponse>)
    ensures r.Threw? <==> interrupted
    ensures r.Threw? ==> r.exception == Detailed(Some("Emergency payment interrupted"), Some("EMERGENCY_INTERRUPTED"),
                                                  request.orderId)
    ensures r.Returned? ==> r.value.IsSuccessful() && r.value.amount == request.amount && r.value.errorMessage.None?
    ensures r.Returned? ==> r.value.transactionId == Some("EMERGENCY-" + uuid)
                            && r.value.gatewayResponse == Some(EmergencyGateway)
  {
    if interrupted then
      Threw(Detailed(Some("Emergency payment interrupted"), Some("EMERGENCY_INTERRUPTED"), request.orderId))
    else
      var response := CreateSuccessfulPaymentResponse(request, uuid, now);
      Returned(PaymentResponse(Some("EMERGENCY-" + Render(response.transactionId)), response.amount,
                               response.status, response.timestamp, None, Some(EmergencyGateway)))
  }

  /** `isHealthy()`: false when the short sleep is interrupted, otherwise healthy when the draw exceeds 0.1. */
  function IsHealthy(interrupted: bool, healthDraw: real): (r: bool)
    ensures interrupted ==> !r
    ensures r <==> !interrupted && healthDraw > 0.1
  {
    if interrupted then false else healthDraw > 0.1
  }

  /**
   * No response of the emergency path is ever a fallback response: the
   * emergency path never reports PENDING_MANUAL_REVIEW, and its ids start
   * with "EMERGENCY-" rather than "FALLBACK-".
   */
  lemma EmergencyIsNeverFallback(request: PaymentRequest, interrupted: bool, uuid: string, now: int,
                                 other: PaymentRequest, ex: PaymentException, fallbackUuid: string, fallbackNow: int)
    ensures var r := ProcessEmergencyPayment(request, interrupted, uuid, now);
            r.Returned? ==> r.value.status != Some(PaymentPendingManualReview)
                            && r.value != FallbackPayment(other, ex, fallbackUuid, fallbackNow)
  {
    var r := ProcessEmergencyPayment(request, interrupted, uuid, now);
    if r.Returned? {
      var f := FallbackPayment(other, ex, fallbackUuid, fallbackNow);
      assert r.value.transactionId.value[0] == 'E';
      assert f.transactionId.value[0] == 'F';
    }
  }

  /**
   * The body of `processPayment` never produces the fallback: what it returns
   * is successful, while the fallback is pending and never successful.
   */
  lemma ProcessPaymentIsNeverFallback(request: PaymentRequest, delayDraw: nat, interrupted: bool, failureDraw: real,
                                      uuid: string, now: int, ex: PaymentException, fallbackUuid: string)
    requires delayDraw < 200
    ensures var r := ProcessPayment(request, delayDraw, interrupted, failureDraw, uuid, now);
            r.Returned? ==> r.value != FallbackPayment(request, ex, fallbackUuid, now)
  {
  }
}
