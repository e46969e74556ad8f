/**
 * The order service's own steps: the inventory check and the asynchronous
 * payment call with its request projection and its failed-response
 * construction. The orchestrating `processOrder` is not part of this module.
 * Futures are modelled by the value they complete with; random draws,
 * generated UUIDs and clock readings are parameters.
 */
module OrderService {
  import opened JavaLang
  import opened Model
  import opened Exceptions

  /** The projection at the top of `processPaymentAsync`: the order's id, amount and card token. */
  function ToPaymentRequest(order: OrderRequest): (r: PaymentRequest)
    ensures r.orderId == order.orderId && r.amount == order.amount && r.cardToken == order.cardToken
  {
    PaymentRequest(order.orderId, order.amount, order.cardToken)
  }

  /** The projection ignores the order-only fields: customer, product, quantity and address. */
  lemma ProjectionIgnoresOrderOnlyFields(a: OrderRequest, b: OrderRequest)
    ensures ToPaymentRequest(a) == ToPaymentRequest(b)
            <==> a.orderId == b.orderId && a.amount == b.amount && a.cardToken == b.cardToken
  {
  }

  /** Two order requests with the same payment fields give payment requests that `equals` each other. */
  lemma ProjectionRespectsEquals(a: OrderRequest, b: OrderRequest)
    requires a.Equals(Some(b))
    ensures ToPaymentRequest(a).Equals(Some(ToPaymentRequest(b)))
  {
  }

  /** How the call to `paymentService.processPayment` ends. */
  datatype PaymentCall =
    | Responded(response: PaymentResponse)
    | ThrewPayment(exception: PaymentException)
    | ThrewInterrupted(message: JString)

  /**
   * How `processPaymentAsync` ends. On interrupt the source builds a FAILED
   * response and a completed future holding it, but does not return that
   * future: the response is `discarded`.
   */
  datatype AsyncPayment =
    | Completed(response: PaymentResponse)
    | Propagated(exception: PaymentException)
    | FellThrough(discarded: PaymentResponse)

  /** The response the interrupt handler builds with the five-argument constructor. */
  function FailedPaymentResponse(order: OrderRequest, message: JString, uuid: string, now: int): (r: PaymentResponse)
    ensures r.status == Some(PaymentFailed) && r.IsFailed() && !r.IsSuccessful() && !r.IsPending()
    ensures r.transactionId.Some? && r.transactionId.value == "FAILED-" + uuid
    ensures r.amount == order.amount && r.errorMessage == message && r.timestamp == now
    ensures r.gatewayResponse.None?
  {
    PaymentResponseWithError(Some("FAILED-" + uuid), order.amount, Some(PaymentFailed), now, message)
  }

  /**
   * `processPaymentAsync(request)`: the projected request goes to `service`;
   * a response is passed through unchanged, a PaymentException propagates,
   * and an interrupt produces the FAILED response that the source then drops.
   */
  function ProcessPaymentAsync(order: OrderRequest, service: PaymentRequest -> PaymentCall, uuid: string, now: int)
    : (r: AsyncPayment)
    ensures service(ToPaymentRequest(order)).Responded? <==> r.Completed?
    ensures r.Completed? ==> r.response == service(ToPaymentRequest(order)).response
    ensures service(ToPaymentRequest(order)).ThrewPayment?
            ==> r == Propagated(service(ToPaymentRequest(order)).exception)
    ensures r.FellThrough? <==> service(ToPaymentRequest(order)).ThrewInterrupted?
    ensures r.FellThrough? ==> r.discarded == FailedPaymentResponse(order, service(ToPaymentRequest(order)).message,
                                                                   uuid, now)
  {
    var paymentRequest := ToPaymentRequest(order);
    match service(paymentRequest)
    case Responded(response) => Completed(response)
    case ThrewPayment(e) => Propagated(e)
    case ThrewInterrupted(message) => FellThrough(FailedPaymentResponse(order, message, uuid, now))
  }

  /** The interrupt handler's response is never mistaken for a successful or a queued payment. */
  lemma FailedResponseIsOnlyFailed(order: OrderRequest, message: JString, uuid: string, now: int,
                                   other: PaymentResponse)
    requires other.IsSuccessful() || other.IsPending()
    ensures FailedPaymentResponse(order, message, uuid, now) != other
    ensures !FailedPaymentResponse(order, message, uuid, now).Equals(Some(other))
  {
  }

  /** The inventory lookup's sleep, from a draw of `nextInt(3000)`. */
  function InventoryDelayMs(draw: nat): (r: nat)
    requires draw < 3000
    ensures 2000 <= r <= 4999
  {
    2000 + draw
  }

  /** Inventory is reported available when the draw from [0, 1) is below this rate. */
  const AvailabilityRate: real := 0.7

  /**
   * `checkInventory(request)`: after the delay of `InventoryDelayMs` the item
   * is available when the draw is below 0.7; an interrupted sleep completes
   * with false.
   */
  function CheckInventory(interrupted: bool, availabilityDraw: real): (available: bool)
    ensures interrupted ==> !available
    ensures available <==> !interrupted && availabilityDraw < AvailabilityRate
  {
    if interrupted then false else availabilityDraw < AvailabilityRate
  }
}
