/**
 * Shared vocabulary of the payment service: payment records, the results of
 * the charge provider and of webhook signature verification, and the kinds
 * of reply a route can give.
 */
module Payments {

  datatype Option<+T> = None | Some(value: T) {
    /** The value, or `default` for None (Python's `dict.get(key, default)`). */
    function GetOr(default: T): T {
      match this
      case Some(v) => v
      case None => default
    }
  }

  /** Fiat conversion rates keyed by currency code. */
  type Rates = map<string, real>

  /** PaymentStatus; only PENDING and COMPLETED are ever assigned. */
  datatype Status = Pending | Completed | Failed | Expired

  /**
   * One entry of the payment history: the fields of PaymentInfo plus the
   * `completed_at` key the webhook adds (None until it does).
   */
  datatype PaymentRecord = PaymentRecord(
    id: string,
    amount: real,
    currency: string,
    crypto: string,
    status: Status,
    timestamp: real,
    paymentUrl: string,
    exchangeRate: real,
    customerEmail: Option<string>,
    description: string,
    completedAt: Option<real>)

  /** What the charge provider returns for a created charge. */
  datatype Charge = Charge(id: string, hostedUrl: string)

  /** A webhook event whose signature the provider's library has accepted. */
  datatype Event = Event(kind: string, chargeId: string)

  const ChargeConfirmed: string := "charge:confirmed"

  /** The exception behind a 500 reply. */
  datatype Fault =
    | AmountRefused   // `float(...)` refuses the amount: ValueError or TypeError
    | KeyError        // `SUPPORTED_CRYPTOS[crypto]` of an unknown code
    | ProviderError   // the charge provider raised
    | TypeError       // the rate limiter's pruning subtracts a list
    | EventRejected   // signature verification or event parsing raised
    | Unserializable  // `jsonify` meets the PaymentStatus enum member

  /** The kind of reply a route gives, without its JSON body. */
  datatype Reply =
    | Ok                          // 200 {'success': True}
    | Created(record: PaymentRecord)  // 200 with the new payment
    | BadRequest(message: string) // 400
    | TooManyRequests             // 429
    | ServerError(fault: Fault)   // 500
}
