/**
 * The input checks of `create_payment` and the record it builds. The catalog
 * of supported cryptocurrencies (code to display name) and fiat currencies
 * is a parameter.
 */
module Checkout {
  import opened Payments

  /** The `amount` field of the request body. */
  datatype AmountField =
    | Absent            // no key: `data.get('amount', 0)`
    | Numeric(value: real)
    | NotNumeric        // something `float(...)` refuses, a JSON null included

  /** The request body; None stands for a key that is not present. */
  datatype CreateRequest = CreateRequest(
    amount: AmountField,
    currency: Option<string>,
    crypto: Option<string>,
    customerEmail: Option<string>,
    description: Option<string>)

  /** SUPPORTED_CRYPTOS (code to its "name") and SUPPORTED_CURRENCIES. */
  datatype Catalog = Catalog(cryptoNames: map<string, string>, currencies: set<string>)

  const DefaultCurrency: string := "USD"
  const DefaultCrypto: string := "BTC"

  const InvalidAmount: string := "Invalid amount"
  const UnsupportedCrypto: string := "Unsupported cryptocurrency"
  const UnsupportedCurrency: string := "Unsupported currency"

  /**
   * The amount after `float(...)`: Some(value), or None when that raises
   * (ValueError for a non-numeric string, TypeError for null, a list or an object).
   */
  function AmountOf(f: AmountField): (r: Option<real>)
    ensures r.None? <==> f.NotNumeric?
    ensures f.Absent? ==> r == Some(0.0)
    ensures f.Numeric? ==> r == Some(f.value)
  {
    match f
    case Absent => Some(0.0)
    case Numeric(a) => Some(a)
    case NotNumeric => None
  }

  /** `data.get('currency', 'USD')`. */
  function CurrencyOf(req: CreateRequest): (r: string)
    ensures req.currency.Some? ==> r == req.currency.value
    ensures req.currency.None? ==> r == "USD"
  {
    req.currency.GetOr(DefaultCurrency)
  }

  /** `data.get('crypto', 'BTC')`. */
  function CryptoOf(req: CreateRequest): (r: string)
    ensures req.crypto.Some? ==> r == req.crypto.value
    ensures req.crypto.None? ==> r == "BTC"
  {
    req.crypto.GetOr(DefaultCrypto)
  }

  /** validate_payment_amount: the currency plays no part. */
  function ValidatePaymentAmount(amount: real, currency: string): (ok: bool)
    ensures ok <==> amount > 0.0
  {
    !(amount <= 0.0)
  }

  /** The outcome of the checks: the values a record is built from, or the reply. */
  datatype Checked =
    | Accepted(amount: real, currency: string, crypto: string, description: string)
    | Rejected(reply: Reply)

  /** An amount that parses and is positive. */
  predicate AmountValid(req: CreateRequest) {
    AmountOf(req.amount).Some? && AmountOf(req.amount).value > 0.0
  }

  /**
   * The checks as written. The default description is built before any check,
   * so an unknown crypto code raises KeyError (a 500) before the amount is
   * looked at, and the 400 "Unsupported cryptocurrency" is never given.
   */
  function CheckAsWritten(req: CreateRequest, cat: Catalog): (v: Checked)
    ensures v.Rejected? ==> v.reply.BadRequest? || v.reply.ServerError?
    ensures v == Rejected(ServerError(AmountRefused)) <==> req.amount.NotNumeric?
    ensures v == Rejected(ServerError(KeyError)) <==>
      !req.amount.NotNumeric? && CryptoOf(req) !in cat.cryptoNames
    ensures v == Rejected(BadRequest(InvalidAmount)) <==>
      !req.amount.NotNumeric? && CryptoOf(req) in cat.cryptoNames && !AmountValid(req)
    ensures v != Rejected(BadRequest(UnsupportedCrypto))
    ensures v == Rejected(BadRequest(UnsupportedCurrency)) <==>
      AmountValid(req) && CryptoOf(req) in cat.cryptoNames && CurrencyOf(req) !in cat.currencies
    ensures v.Accepted? <==>
      AmountValid(req) && CryptoOf(req) in cat.cryptoNames && CurrencyOf(req) in cat.currencies
  {
    match AmountOf(req.amount)
    case None => Rejected(ServerError(AmountRefused))
    case Some(amount) =>
      var currency := CurrencyOf(req);
      var crypto := CryptoOf(req);
      if crypto !in cat.cryptoNames then Rejected(ServerError(KeyError))
      else
        var description := req.description.GetOr("Payment in " + cat.cryptoNames[crypto]);
        if !ValidatePaymentAmount(amount, currency) then Rejected(BadRequest(InvalidAmount))
        else if crypto !in cat.cryptoNames then Rejected(BadRequest(UnsupportedCrypto))
        else if currency !in cat.currencies then Rejected(BadRequest(UnsupportedCurrency))
        else Accepted(amount, currency, crypto, description)
  }

  /**
   * The checks evidently intended: amount, then crypto, then currency, each a
   * 400 with its own message; the default description is built only for a
   * known crypto code.
   */
  function Check(req: CreateRequest, cat: Catalog): (v: Checked)
    ensures v.Rejected? ==> v.reply.BadRequest? || v.reply.ServerError?
    ensures v == Rejected(ServerError(AmountRefused)) <==> req.amount.NotNumeric?
    ensures v == Rejected(BadRequest(InvalidAmount)) <==>
      !req.amount.NotNumeric? && !AmountValid(req)
    ensures v == Rejected(BadRequest(UnsupportedCrypto)) <==>
      AmountValid(req) && CryptoOf(req) !in cat.cryptoNames
    ensures v == Rejected(BadRequest(UnsupportedCurrency)) <==>
      AmountValid(req) && CryptoOf(req) in cat.cryptoNames && CurrencyOf(req) !in cat.currencies
    ensures v.Accepted? <==>
      AmountValid(req) && CryptoOf(req) in cat.cryptoNames && CurrencyOf(req) in cat.currencies
    ensures v.Accepted? ==>
      v.amount == AmountOf(req.amount).value && v.currency == CurrencyOf(req) && v.crypto == CryptoOf(req) &&
      v.description == req.description.GetOr("Payment in " + cat.cryptoNames[v.crypto])
  {
    match AmountOf(req.amount)
    case None => Rejected(ServerError(AmountRefused))
    case Some(amount) =>
      var currency := CurrencyOf(req);
      var crypto := CryptoOf(req);
      if !ValidatePaymentAmount(amount, currency) then Rejected(BadRequest(InvalidAmount))
      else if crypto !in cat.cryptoNames then Rejected(BadRequest(UnsupportedCrypto))
      else if currency !in cat.currencies then Rejected(BadRequest(UnsupportedCurrency))
      else Accepted(amount, currency, crypto, req.description.GetOr("Payment in " + cat.cryptoNames[crypto]))
  }

  /**
   * The two differ only in the reply to an unknown crypto code, which both
   * reject, so they accept the same requests with the same values.
   */
  lemma CheckAgreesWithAsWritten(req: CreateRequest, cat: Catalog)
    ensures CryptoOf(req) in cat.cryptoNames || req.amount.NotNumeric? ==>
      Check(req, cat) == CheckAsWritten(req, cat)
    ensures Check(req, cat).Accepted? <==> CheckAsWritten(req, cat).Accepted?
    ensures !req.amount.NotNumeric? && CryptoOf(req) !in cat.cryptoNames ==>
      CheckAsWritten(req, cat) == Rejected(ServerError(KeyError)) &&
      Check(req, cat) == Rejected(BadRequest(if AmountValid(req) then UnsupportedCrypto else InvalidAmount))
  {
  }

  /**
   * A request for 10 units of a crypto code outside the catalog: as written it
   * gets a 500 from the KeyError, where a 400 was evidently meant.
   */
  lemma UnknownCryptoExample()
    ensures var req := CreateRequest(Numeric(10.0), Some("USD"), Some("XYZ"), None, None);
      var cat := Catalog(map["BTC" := "Bitcoin"], {"USD"});
      CheckAsWritten(req, cat) == Rejected(ServerError(KeyError)) &&
      Check(req, cat) == Rejected(BadRequest(UnsupportedCrypto))
  {
  }

  /** `exchange_rates.get(currency, 1.0)`. */
  function RateFor(rates: Rates, currency: string): (rate: real)
    ensures currency in rates ==> rate == rates[currency]
    ensures currency !in rates ==> rate == 1.0
  {
    if currency in rates then rates[currency] else 1.0
  }

  /** The PaymentInfo stored for an accepted request and the charge created for it. */
  function NewRecord(v: Checked, charge: Charge, rates: Rates, customerEmail: Option<string>, now: real): (r: PaymentRecord)
    requires v.Accepted?
    ensures r.status == Pending && r.completedAt == None
    ensures r.id == charge.id && r.paymentUrl == charge.hostedUrl
    ensures r.amount == v.amount && r.currency == v.currency && r.crypto == v.crypto
    ensures r.exchangeRate == RateFor(rates, v.currency)
    ensures r.timestamp == now && r.customerEmail == customerEmail && r.description == v.description
  {
    PaymentRecord(
      id := charge.id,
      amount := v.amount,
      currency := v.currency,
      crypto := v.crypto,
      status := Pending,
      timestamp := now,
      paymentUrl := charge.hostedUrl,
      exchangeRate := RateFor(rates, v.currency),
      customerEmail := customerEmail,
      description := v.description,
      completedAt := None)
  }

  /** What a create request ends in: the reply, and the record saved to the history, if any. */
  datatype Submission = Submission(reply: Reply, saved: Option<PaymentRecord>)

  /**
   * The end of `create_payment` as written, given the checks' outcome, the
   * rates the cache returned and the provider's charge. The record is saved
   * before the reply is encoded, and encoding it meets the PaymentStatus enum
   * member in `payment_info`, which the JSON encoder refuses: the request
   * fails with a 500 although its payment was stored.
   */
  function SubmitAsWritten(v: Checked, rates: Rates, charge: Option<Charge>,
                           customerEmail: Option<string>, now: real): (s: Submission)
    ensures v.Rejected? ==> s == Submission(v.reply, None)
    ensures v.Accepted? && charge.None? ==> s == Submission(ServerError(ProviderError), None)
    ensures v.Accepted? && charge.Some? ==>
      s.saved == Some(NewRecord(v, charge.value, rates, customerEmail, now)) &&
      s.reply == ServerError(Unserializable)
    ensures v.Accepted? ==> !s.reply.Created?
  {
    match v
    case Rejected(reply) => Submission(reply, None)
    case Accepted(_, _, _, _) =>
      match charge
      case None => Submission(ServerError(ProviderError), None)
      case Some(c) => Submission(ServerError(Unserializable), Some(NewRecord(v, c, rates, customerEmail, now)))
  }

  /** The end of `create_payment` as evidently intended: a saved payment is reported. */
  function Submit(v: Checked, rates: Rates, charge: Option<Charge>,
                  customerEmail: Option<string>, now: real): (s: Submission)
    ensures v.Rejected? ==> s == Submission(v.reply, None)
    ensures v.Accepted? && charge.None? ==> s == Submission(ServerError(ProviderError), None)
    ensures v.Accepted? && charge.Some? ==> s.saved == Some(NewRecord(v, charge.value, rates, customerEmail, now))
    ensures v.Accepted? ==> (s.reply.Created? <==> s.saved.Some?)
    ensures s.saved.Some? ==>
      v.Accepted? && charge.Some? &&
      s.saved.value == NewRecord(v, charge.value, rates, customerEmail, now) &&
      s.reply == Created(s.saved.value)
  {
    match v
    case Rejected(reply) => Submission(reply, None)
    case Accepted(_, _, _, _) =>
      match charge
      case None => Submission(ServerError(ProviderError), None)
      case Some(c) =>
        var r := NewRecord(v, c, rates, customerEmail, now);
        Submission(Created(r), Some(r))
  }

  /**
   * The two save the same record in every case; they differ only in the reply
   * to a created charge, a 500 as written where the payment was meant.
   */
  lemma SavedButReportedAsFailure(v: Checked, rates: Rates, charge: Option<Charge>,
                                  customerEmail: Option<string>, now: real)
    ensures SubmitAsWritten(v, rates, charge, customerEmail, now).saved ==
            Submit(v, rates, charge, customerEmail, now).saved
    ensures SubmitAsWritten(v, rates, charge, customerEmail, now).reply !=
            Submit(v, rates, charge, customerEmail, now).reply
        <==> v.Accepted? && charge.Some?
  {
  }
}
