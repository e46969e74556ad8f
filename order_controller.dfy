/**
 * The order controller's own logic: the mapping from an order status to an
 * HTTP status, the error responses it builds when processing fails, and the
 * used-memory figure of its statistics. The HTTP plumbing is not modelled.
 */
module OrderController {
  import opened JavaLang
  import opened Model

  /** The HTTP statuses the controller answers with. */
  datatype HttpStatus = Ok | Accepted | BadRequest | InternalServerError | Gone
  {
    /** `value()`: the numeric status code. */
    function Value(): int
    {
      match this
      case Ok => 200
      case Accepted => 202
      case BadRequest => 400
      case InternalServerError => 500
      case Gone => 410
    }
  }

  /**
   * `mapOrderStatusToHttpStatus(response)`: a switch over the five order
   * statuses with 500 for anything else. A switch on a null String throws, so
   * a null status is a NullPointerException.
   */
  function MapOrderStatusToHttpStatus(response: OrderResponse): (r: Result<HttpStatus, NullPointerException>)
    ensures r.Failure? <==> response.status.None?
    ensures r == Success(Ok) <==> response.IsConfirmed()
    ensures response.status == Some(OrderPending) ==> r == Success(Accepted)
    ensures response.status == Some(OrderFailed) ==> r == Success(BadRequest)
    ensures response.status == Some(OrderError) ==> r == Success(InternalServerError)
    ensures response.status == Some(OrderCancelled) ==> r == Success(Gone)
    ensures response.status.Some?
            && response.status.value !in {OrderConfirmed, OrderPending, OrderFailed, OrderError, OrderCancelled}
            ==> r == Success(InternalServerError)
  {
    match response.status
    case None => Failure(NullPointerException)
    case Some(status) =>
      Success(
        if status == OrderConfirmed then Ok
        else if status == OrderPending then Accepted
        else if status == OrderFailed then BadRequest
        else if status == OrderError then InternalServerError
        else if status == OrderCancelled then Gone
        else InternalServerError)
  }

  /**
   * The mapping agrees with the response's status classes: a confirmed order
   * is 200, a pending one 202, a cancelled one 410, and a failed one 400 or
   * 500; a 2xx code is given only to confirmed and pending orders.
   */
  lemma HttpStatusFollowsStatusClass(response: OrderResponse)
    ensures response.IsConfirmed() ==> MapOrderStatusToHttpStatus(response) == Success(Ok)
    ensures response.IsPending() ==> MapOrderStatusToHttpStatus(response) == Success(Accepted)
    ensures response.IsCancelled() ==> MapOrderStatusToHttpStatus(response) == Success(Gone)
    ensures response.IsFailed() ==> MapOrderStatusToHttpStatus(response).value.Value() in {400, 500}
    ensures var r := MapOrderStatusToHttpStatus(response);
            r.Success? && 200 <= r.value.Value() < 300 ==> response.IsConfirmed() || response.IsPending()
  {
  }

  /**
   * The response built in `exceptionally` when the asynchronous processing
   * fails with a throwable whose message is `message`.
   */
  function ErrorResponse(request: OrderRequest, message: JString, now: int): (r: OrderResponse)
    ensures r.status == Some(OrderError) && r.IsFailed()
    ensures r.orderId == request.orderId && r.amount == request.amount
    ensures r.paymentId.None? && r.trackingNumber.None? && r.timestamp == now
    ensures r.errorMessage == Some("Order processing failed: " + Render(message))
  {
    OrderResponse(request.orderId, Some(OrderError), None, Some("Order processing failed: " + Render(message)), now,
                  request.amount, None)
  }

  /** The response built when the synchronous endpoint catches an exception. */
  function SyncErrorResponse(request: OrderRequest, message: JString, now: int): (r: OrderResponse)
    ensures r.status == Some(OrderError) && r.IsFailed()
    ensures r.orderId == request.orderId && r.amount == 0
    ensures r.paymentId.None? && r.trackingNumber.None? && r.timestamp == now
    ensures r.errorMessage == Some("Synchronous order processing failed: " + Render(message))
  {
    BasicOrderResponse(request.orderId, Some(OrderError), None,
                       Some("Synchronous order processing failed: " + Render(message)), now)
  }

  /** Both error responses carry status ERROR, which the mapping itself turns into the 500 the handlers send. */
  lemma ErrorResponsesMapToServerError(request: OrderRequest, message: JString, now: int)
    ensures MapOrderStatusToHttpStatus(ErrorResponse(request, message, now)) == Success(InternalServerError)
    ensures MapOrderStatusToHttpStatus(SyncErrorResponse(request, message, now)) == Success(InternalServerError)
    ensures InternalServerError.Value() == 500
  {
  }

  /** `ServiceStats.getUsedMemory()`. */
  function UsedMemory(totalMemory: int, freeMemory: int): (r: int)
    ensures r + freeMemory == totalMemory
    ensures 0 <= freeMemory <= totalMemory ==> 0 <= r <= totalMemory
  {
    totalMemory - freeMemory
  }
}
