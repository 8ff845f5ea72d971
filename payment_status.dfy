/** The payment status record every payment provider returns. */
module PaymentStatus {
  import opened Wrappers

  /** The `IStatus::STATUS_*` states the providers produce. */
  datatype State = Authorized | Cancelled | Cleared | Committed | Aborted

  /** Provider data attached to a status; a value may be PHP's null. */
  type Data = seq<(string, Option<string>)>

  /** `new Status($internalPaymentId, $paymentReference, $message, $status, $data)`. */
  datatype Status = Status(
    internalPaymentId: Option<string>,
    paymentReference: Option<string>,
    message: Option<string>,
    state: State,
    data: Data)
}
