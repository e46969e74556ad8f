/**
 * PaymentException (package `exception`): the failure the payment service
 * throws, with an optional error code and order id, and its `toString`.
 */
module Exceptions {
  import opened JavaLang

  /** A Throwable passed as the cause; only its message is kept. */
  datatype Throwable = Throwable(message: JString)

  datatype PaymentException = PaymentException(
    message: JString,
    errorCode: JString,
    orderId: JString,
    cause: Option<Throwable>)

  /** What a call into the payment code produces: a value, or a thrown PaymentException. */
  datatype Outcome<+T> = Returned(value: T) | Threw(exception: PaymentException)

  /** `new PaymentException(message)`: no error code, no order id, no cause. */
  function WithMessage(message: JString): (e: PaymentException)
    ensures e.message == message && e.errorCode.None? && e.orderId.None? && e.cause.None?
  {
    PaymentException(message, None, None, None)
  }

  /** `new PaymentException(message, cause)`: no error code, no order id. */
  function WithCause(message: JString, cause: Option<Throwable>): (e: PaymentException)
    ensures e.message == message && e.errorCode.None? && e.orderId.None? && e.cause == cause
  {
    PaymentException(message, None, None, cause)
  }

  /** `new PaymentException(message, errorCode, orderId)`: stores both as given, no cause. */
  function Detailed(message: JString, errorCode: JString, orderId: JString): (e: PaymentException)
    ensures e.message == message && e.errorCode == errorCode && e.orderId == orderId && e.cause.None?
  {
    PaymentException(message, errorCode, orderId, None)
  }

  /** `new PaymentException(message, errorCode, orderId, cause)`: stores all four as given. */
  function DetailedWithCause(message: JString, errorCode: JString, orderId: JString,
                             cause: Option<Throwable>): (e: PaymentException)
    ensures e.message == message && e.errorCode == errorCode && e.orderId == orderId && e.cause == cause
  {
    PaymentException(message, errorCode, orderId, cause)
  }

  // ---------------------------------------------------------------------------
  // toString

  /** The opening of the rendering, up to and including the quote that closes the message. */
  function MessagePart(e: PaymentException): string
  {
    "PaymentException{" + "message='" + Render(e.message) + "'"
  }

  function ErrorCodePart(errorCode: JString): string
  {
    if errorCode.Some? then ", errorCode='" + errorCode.value + "'" else ""
  }

  function OrderIdPart(orderId: JString): string
  {
    if orderId.Some? then ", orderId='" + orderId.value + "'" else ""
  }

  /** The text `toString` produces, part by part. */
  function Description(e: PaymentException): string
  {
    MessagePart(e) + ErrorCodePart(e.errorCode) + OrderIdPart(e.orderId) + "}"
  }

  /** `toString`: appends the parts to a builder, each optional part under its own test. */
  method ToString(e: PaymentException) returns (s: string)
    ensures s == Description(e)
  {
    var sb := "";
    sb := sb + "PaymentException{";
    sb := sb + "message='" + Render(e.message) + "'";
    assert sb == MessagePart(e);
    if e.errorCode.Some? {
      sb := sb + ", errorCode='" + e.errorCode.value + "'";
    }
    assert sb == MessagePart(e) + ErrorCodePart(e.errorCode);
    if e.orderId.Some? {
      sb := sb + ", orderId='" + e.orderId.value + "'";
    }
    assert sb == MessagePart(e) + ErrorCodePart(e.errorCode) + OrderIdPart(e.orderId);
    sb := sb + "}";
    s := sb;
  }

  /** The rendering always opens with the message part and closes with "}". */
  lemma DescriptionFrame(e: PaymentException)
    ensures "PaymentException{message='" + Render(e.message) + "'" <= Description(e)
    ensures Description(e)[|Description(e)| - 1] == '}'
  {
    var m := MessagePart(e);
    assert m == "PaymentException{message='" + Render(e.message) + "'";
    assert Description(e) == m + (ErrorCodePart(e.errorCode) + OrderIdPart(e.orderId) + "}");
  }

  /**
   * Right after the message part, the rendering continues with the error-code
   * segment exactly when the error code is non-null.
   */
  lemma ErrorCodeSegmentIff(e: PaymentException)
    ensures var d := Description(e); var h := |MessagePart(e)|;
            h <= |d| && (", errorCode='" <= d[h..] <==> e.errorCode.Some?)
  {
    var d := Description(e);
    var h := |MessagePart(e)|;
    var rest := ErrorCodePart(e.errorCode) + OrderIdPart(e.orderId) + "}";
    assert d == MessagePart(e) + rest;
    assert d[h..] == rest;
    if e.errorCode.None? {
      assert rest == OrderIdPart(e.orderId) + "}";
      if e.orderId.Some? {
        assert rest[2] == 'o';
      } else {
        assert |rest| == 1;
      }
    }
  }

  /**
   * Right after the message and error-code parts, the rendering continues with
   * the order-id segment exactly when the order id is non-null; so the order id
   * always comes after any error code, and the rendering ends with "}".
   */
  lemma OrderIdSegmentIff(e: PaymentException)
    ensures var d := Description(e); var h := |MessagePart(e)| + |ErrorCodePart(e.errorCode)|;
            h < |d| && (", orderId='" <= d[h..] <==> e.orderId.Some?) && d[|d| - 1] == '}'
  {
    var d := Description(e);
    var h := |MessagePart(e)| + |ErrorCodePart(e.errorCode)|;
    var rest := OrderIdPart(e.orderId) + "}";
    assert d == MessagePart(e) + ErrorCodePart(e.errorCode) + rest;
    assert d[h..] == rest;
  }

  /** An exception built from a message (with or without a cause) renders with neither optional segment. */
  lemma PlainExceptionRendering(message: JString, cause: Option<Throwable>)
    ensures Description(WithMessage(message)) == "PaymentException{message='" + Render(message) + "'}"
    ensures Description(WithCause(message, cause)) == "PaymentException{message='" + Render(message) + "'}"
  {
  }
}
