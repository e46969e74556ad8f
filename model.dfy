/**
 * The request and response value objects of the order and payment flow
 * (package `model`). Every field is final in the source, so each type is a
 * datatype; a `String` field is a JString (it may be null), a `double`
 * amount is an integer Amount, a `long` timestamp an int.
 */
module Model {
  import opened JavaLang

  /** A monetary amount. The source uses `double`; the model uses exact integers. */
  type Amount = int

  // ---------------------------------------------------------------------------
  // PaymentRequest

  datatype PaymentRequest = PaymentRequest(orderId: JString, amount: Amount, cardToken: JString)
  {
    /** `equals(o)`: false for null, otherwise the field-wise null-safe comparison. */
    function Equals(other: Option<PaymentRequest>): (r: bool)
      ensures r <==> other == Some(this)
    {
      other.Some?
      && other.value.amount == amount
      && NullSafeEquals(orderId, other.value.orderId)
      && NullSafeEquals(cardToken, other.value.cardToken)
    }
  }

  /** The no-argument constructor used for deserialization. */
  function EmptyPaymentRequest(): (r: PaymentRequest)
    ensures r.orderId.None? && r.cardToken.None? && r.amount == 0
  {
    PaymentRequest(None, 0, None)
  }

  /** The card token as `toString` shows it: at most its first 8 characters, then "***". */
  function MaskedCardToken(token: JString): (r: string)
    ensures token.None? ==> r == "null"
    ensures token.Some? ==> |r| <= 11 && |r| == (if |token.value| < 8 then |token.value| else 8) + 3
    ensures token.Some? ==> r[..|r| - 3] <= token.value && r[|r| - 3..] == "***"
  {
    match token
    case None => "null"
    case Some(t) => t[..if 8 < |t| then 8 else |t|] + "***"
  }

  /** The mask never depends on characters at index 8 or beyond. */
  lemma MaskHidesTail(t1: string, t2: string)
    requires |t1| >= 8 && |t2| >= 8 && t1[..8] == t2[..8]
    ensures MaskedCardToken(Some(t1)) == MaskedCardToken(Some(t2))
  {
  }

  // ---------------------------------------------------------------------------
  // PaymentResponse

  const PaymentCompleted := "COMPLETED"
  const PaymentPending := "PENDING"
  const PaymentFailed := "FAILED"
  const PaymentPendingManualReview := "PENDING_MANUAL_REVIEW"

  datatype PaymentResponse = PaymentResponse(
    transactionId: JString,
    amount: Amount,
    status: JString,
    timestamp: int,
    errorMessage: JString,
    gatewayResponse: JString)
  {
    predicate IsSuccessful()
    {
      status == Some(PaymentCompleted)
    }

    predicate IsFailed()
    {
      status == Some(PaymentFailed)
    }

    predicate IsPending()
    {
      status == Some(PaymentPending) || status == Some(PaymentPendingManualReview)
    }

    /** `equals(o)`: false for null, otherwise the null-safe comparison of all six fields. */
    function Equals(other: Option<PaymentResponse>): (r: bool)
      ensures r <==> other == Some(this)
    {
      other.Some?
      && other.value.amount == amount
      && timestamp == other.value.timestamp
      && NullSafeEquals(transactionId, other.value.transactionId)
      && NullSafeEquals(status, other.value.status)
      && NullSafeEquals(errorMessage, other.value.errorMessage)
      && NullSafeEquals(gatewayResponse, other.value.gatewayResponse)
    }
  }

  /** The four-argument constructor: no error message and no gateway response. */
  function BasicPaymentResponse(transactionId: JString, amount: Amount, status: JString, timestamp: int): (r: PaymentResponse)
    ensures r.errorMessage.None? && r.gatewayResponse.None?
    ensures r.transactionId == transactionId && r.amount == amount && r.status == status && r.timestamp == timestamp
  {
    PaymentResponse(transactionId, amount, status, timestamp, None, None)
  }

  /** The five-argument constructor: an error message and no gateway response. */
  function PaymentResponseWithError(transactionId: JString, amount: Amount, status: JString, timestamp: int,
                                    errorMessage: JString): (r: PaymentResponse)
    ensures r.gatewayResponse.None? && r.errorMessage == errorMessage
    ensures r.transactionId == transactionId && r.amount == amount && r.status == status && r.timestamp == timestamp
  {
    PaymentResponse(transactionId, amount, status, timestamp, errorMessage, None)
  }

  /** The no-argument constructor: a null status, so the response is in no status class. */
  function EmptyPaymentResponse(): (r: PaymentResponse)
    ensures r.status.None? && r.amount == 0 && r.timestamp == 0
    ensures r.transactionId.None? && r.errorMessage.None? && r.gatewayResponse.None?
    ensures !r.IsSuccessful() && !r.IsFailed() && !r.IsPending()
  {
    PaymentResponse(None, 0, None, 0, None, None)
  }

  /**
   * The three status classes of a payment response are pairwise exclusive, and
   * each of the four status constants falls in exactly one of them.
   */
  lemma PaymentStatusClasses(r: PaymentResponse)
    ensures !(r.IsSuccessful() && r.IsFailed())
    ensures !(r.IsSuccessful() && r.IsPending())
    ensures !(r.IsFailed() && r.IsPending())
    ensures r.status == Some(PaymentCompleted) ==> r.IsSuccessful()
    ensures r.status == Some(PaymentFailed) ==> r.IsFailed()
    ensures r.status == Some(PaymentPending) || r.status == Some(PaymentPendingManualReview) ==> r.IsPending()
    ensures r.IsSuccessful() || r.IsFailed() || r.IsPending()
            <==> r.status.Some? && r.status.value in {PaymentCompleted, PaymentFailed, PaymentPending, PaymentPendingManualReview}
  {
  }

  // ---------------------------------------------------------------------------
  // OrderRequest

  datatype OrderRequest = OrderRequest(
    orderId: JString,
    amount: Amount,
    cardToken: JString,
    customerId: JString,
    productId: JString,
    quantity: int,
    shippingAddress: JString)
  {
    /** `equals(o)`: false for null, otherwise the null-safe comparison of all seven fields. */
    function Equals(other: Option<OrderRequest>): (r: bool)
      ensures r <==> other == Some(this)
    {
      other.Some?
      && other.value.amount == amount
      && quantity == other.value.quantity
      && NullSafeEquals(orderId, other.value.orderId)
      && NullSafeEquals(cardToken, other.value.cardToken)
      && NullSafeEquals(customerId, other.value.customerId)
      && NullSafeEquals(productId, other.value.productId)
      && NullSafeEquals(shippingAddress, other.value.shippingAddress)
    }
  }

  /** The four-argument constructor: no product, quantity 1, no shipping address. */
  function BasicOrderRequest(orderId: JString, amount: Amount, cardToken: JString, customerId: JString): (r: OrderRequest)
    ensures r.productId.None? && r.quantity == 1 && r.shippingAddress.None?
    ensures r.orderId == orderId && r.amount == amount && r.cardToken == cardToken && r.customerId == customerId
  {
    OrderRequest(orderId, amount, cardToken, customerId, None, 1, None)
  }

  /** The no-argument constructor: every String null, quantity and amount 0. */
  function EmptyOrderRequest(): (r: OrderRequest)
    ensures r.orderId.None? && r.cardToken.None? && r.customerId.None?
    ensures r.productId.None? && r.shippingAddress.None?
    ensures r.quantity == 0 && r.amount == 0
  {
    OrderRequest(None, 0, None, None, None, 0, None)
  }

  // ---------------------------------------------------------------------------
  // OrderResponse

  const OrderConfirmed := "CONFIRMED"
  const OrderFailed := "FAILED"
  const OrderPending := "PENDING"
  const OrderError := "ERROR"
  const OrderCancelled := "CANCELLED"

  datatype OrderResponse = OrderResponse(
    orderId: JString,
    status: JString,
    paymentId: JString,
    errorMessage: JString,
    timestamp: int,
    amount: Amount,
    trackingNumber: JString)
  {
    predicate IsConfirmed()
    {
      status == Some(OrderConfirmed)
    }

    predicate IsFailed()
    {
      status == Some(OrderFailed) || status == Some(OrderError)
    }

    predicate IsPending()
    {
      status == Some(OrderPending)
    }

    predicate IsCancelled()
    {
      status == Some(OrderCancelled)
    }

    /** `equals(o)`: false for null, otherwise the null-safe comparison of all seven fields. */
    function Equals(other: Option<OrderResponse>): (r: bool)
      ensures r <==> other == Some(this)
    {
      other.Some?
      && timestamp == other.value.timestamp
      && other.value.amount == amount
      && NullSafeEquals(orderId, other.value.orderId)
      && NullSafeEquals(status, other.value.status)
      && NullSafeEquals(paymentId, other.value.paymentId)
      && NullSafeEquals(errorMessage, other.value.errorMessage)
      && NullSafeEquals(trackingNumber, other.value.trackingNumber)
    }
  }

  /** The four-argument constructor: stamped with the clock `now`, amount 0, no tracking number. */
  function BasicOrderResponse(orderId: JString, status: JString, paymentId: JString, errorMessage: JString,
                              now: int): (r: OrderResponse)
    ensures r.amount == 0 && r.trackingNumber.None? && r.timestamp == now
    ensures r.orderId == orderId && r.status == status && r.paymentId == paymentId && r.errorMessage == errorMessage
  {
    OrderResponse(orderId, status, paymentId, errorMessage, now, 0, None)
  }

  /** The no-argument constructor: null status, so the response is in no status class. */
  function EmptyOrderResponse(): (r: OrderResponse)
    ensures r.orderId.None? && r.status.None? && r.paymentId.None? && r.errorMessage.None?
    ensures r.timestamp == 0 && r.amount == 0 && r.trackingNumber.None?
    ensures !r.IsConfirmed() && !r.IsFailed() && !r.IsPending() && !r.IsCancelled()
  {
    OrderResponse(None, None, None, None, 0, 0, None)
  }

  /**
   * The four status classes of an order response are pairwise exclusive, and
   * each of the five status constants falls in exactly one of them.
   */
  lemma OrderStatusClasses(r: OrderResponse)
    ensures !(r.IsConfirmed() && r.IsFailed()) && !(r.IsConfirmed() && r.IsPending())
    ensures !(r.IsConfirmed() && r.IsCancelled()) && !(r.IsFailed() && r.IsPending())
    ensures !(r.IsFailed() && r.IsCancelled()) && !(r.IsPending() && r.IsCancelled())
    ensures r.status == Some(OrderConfirmed) ==> r.IsConfirmed()
    ensures r.status == Some(OrderFailed) || r.status == Some(OrderError) ==> r.IsFailed()
    ensures r.status == Some(OrderPending) ==> r.IsPending()
    ensures r.status == Some(OrderCancelled) ==> r.IsCancelled()
    ensures r.IsConfirmed() || r.IsFailed() || r.IsPending() || r.IsCancelled()
            <==> r.status.Some? && r.status.value in {OrderConfirmed, OrderFailed, OrderPending, OrderError, OrderCancelled}
  {
  }
}
