/**
 * The module-level state of the payment service and the handlers that change
 * it: the exchange-rate cache, the rate limiter's table and the payment
 * history, held by one object. Instants, fetch outcomes, the created charge
 * and the verified webhook event are parameters.
 */
module Service {
  import opened Payments
  import ExchangeRates
  import RateLimit
  import History
  import Checkout

  class PaymentService {
    /** exchange_rate_cache */
    var cache: ExchangeRates.Snapshot
    /** RATE_LIMIT['ip_requests'] */
    var ipRequests: RateLimit.Table
    /** The contents of the payment history file. */
    var history: seq<PaymentRecord>

    constructor ()
      ensures cache == ExchangeRates.Initial
      ensures ipRequests == map[]
      ensures history == []
    {
      cache := ExchangeRates.Initial;
      ipRequests := map[];
      history := [];
    }

    /** get_exchange_rates at instant `now`. */
    method GetExchangeRates(now: real, fetched: Option<Rates>) returns (rates: Rates)
      modifies this`cache
      ensures ExchangeRates.Lookup(cache, rates) == ExchangeRates.Get(old(cache), now, fetched)
    {
      if now - cache.timestamp < ExchangeRates.CacheDuration {
        return cache.rates;
      }
      match fetched {
        case Some(latest) =>
          cache := cache.(rates := latest);
          cache := cache.(timestamp := now);
          rates := latest;
        case None =>
          rates := cache.rates;
      }
    }

    /** The check-and-record step of the rate limiter. */
    method RecordRequest(ip: string, now: real) returns (admitted: bool)
      modifies this`ipRequests
      ensures RateLimit.Decision(admitted, ipRequests) == RateLimit.Record(old(ipRequests), ip, now)
    {
      if ip in ipRequests {
        if |ipRequests[ip]| >= RateLimit.MaxRequests {
          return false;
        }
        ipRequests := ipRequests[ip := ipRequests[ip] + [now]];
      } else {
        ipRequests := ipRequests[ip := [now]];
      }
      admitted := true;
    }

    /** The rate_limit decorator as written, whose pruning raises on a non-empty table. */
    method RateLimitAsWritten(ip: string, now: real) returns (verdict: RateLimit.Verdict)
      modifies this`ipRequests
      ensures RateLimit.Step(verdict, ipRequests) == RateLimit.StepAsWritten(old(ipRequests), ip, now)
    {
      if |ipRequests| != 0 {
        return RateLimit.Crash;
      }
      ipRequests := map[];
      var admitted := RecordRequest(ip, now);
      verdict := if admitted then RateLimit.Admit else RateLimit.Reject;
    }

    /** The rate_limit decorator with the intended pruning. */
    method Limit(ip: string, now: real) returns (verdict: RateLimit.Verdict)
      modifies this`ipRequests
      ensures RateLimit.Step(verdict, ipRequests) == RateLimit.Allow(old(ipRequests), ip, now)
      ensures verdict != RateLimit.Crash
    {
      ipRequests := RateLimit.Prune(ipRequests, now);
      var admitted := RecordRequest(ip, now);
      verdict := if admitted then RateLimit.Admit else RateLimit.Reject;
    }

    /**
     * The part of create_payment after the checks have passed: look up the
     * rates, and when the provider created a charge, append its record.
     */
    method SaveCharge(v: Checkout.Checked, now: real, fetched: Option<Rates>, charge: Option<Charge>,
                      customerEmail: Option<string>) returns (saved: Option<PaymentRecord>)
      requires v.Accepted?
      modifies this`cache, this`history
      ensures var lookup := ExchangeRates.Get(old(cache), now, fetched);
        && cache == lookup.snapshot
        && saved == (if charge.Some? then Some(Checkout.NewRecord(v, charge.value, lookup.rates, customerEmail, now)) else None)
        && history == if saved.Some? then old(history) + [saved.value] else old(history)
    {
      var rates := GetExchangeRates(now, fetched);
      if charge.None? {
        return None;
      }
      var record := Checkout.NewRecord(v, charge.value, rates, customerEmail, now);
      history := history + [record];
      saved := Some(record);
    }

    /**
     * create_payment as written, after the rate limiter. `fetched` is what the
     * rate provider would return; `charge` is the provider's new charge, or
     * None when creating it raises. A rejected request changes nothing; an
     * accepted one refreshes the cache, and its record, if any, is saved
     * before the reply fails to encode.
     */
    method CreatePayment(req: Checkout.CreateRequest, catalog: Checkout.Catalog, now: real,
                         fetched: Option<Rates>, charge: Option<Charge>) returns (reply: Reply)
      modifies this`cache, this`history
      ensures var v := Checkout.CheckAsWritten(req, catalog);
        var lookup := ExchangeRates.Get(old(cache), now, fetched);
        var s := Checkout.SubmitAsWritten(v, lookup.rates, charge, req.customerEmail, now);
        && reply == s.reply
        && cache == (if v.Accepted? then lookup.snapshot else old(cache))
        && history == if s.saved.Some? then old(history) + [s.saved.value] else old(history)
    {
      var v := Checkout.CheckAsWritten(req, catalog);
      if v.Rejected? {
        return v.reply;
      }
      var saved := SaveCharge(v, now, fetched, charge, req.customerEmail);
      reply := if saved.Some? then ServerError(Unserializable) else ServerError(ProviderError);
    }

    /**
     * create_payment as evidently intended: the checks in their intended
     * order, and a saved payment reported to the caller.
     */
    method CreatePaymentIntended(req: Checkout.CreateRequest, catalog: Checkout.Catalog, now: real,
                                 fetched: Option<Rates>, charge: Option<Charge>) returns (reply: Reply)
      modifies this`cache, this`history
      ensures var v := Checkout.Check(req, catalog);
        var lookup := ExchangeRates.Get(old(cache), now, fetched);
        var s := Checkout.Submit(v, lookup.rates, charge, req.customerEmail, now);
        && reply == s.reply
        && cache == (if v.Accepted? then lookup.snapshot else old(cache))
        && history == if s.saved.Some? then old(history) + [s.saved.value] else old(history)
    {
      var v := Checkout.Check(req, catalog);
      if v.Rejected? {
        return v.reply;
      }
      var saved := SaveCharge(v, now, fetched, charge, req.customerEmail);
      reply := if saved.Some? then Created(saved.value) else ServerError(ProviderError);
    }

    /**
     * The webhook: an event whose verification raised gives a 500; a
     * `charge:confirmed` event completes the first record with its charge id;
     * every verified event gets success.
     */
    method Webhook(event: Option<Event>, now: real) returns (reply: Reply)
      modifies this`history
      ensures reply == if event.None? then ServerError(EventRejected) else Ok
      ensures history ==
        if event.Some? && event.value.kind == ChargeConfirmed
        then History.Confirm(old(history), event.value.chargeId, now)
        else old(history)
    {
      if event.None? {
        return ServerError(EventRejected);
      }
      var id := event.value.chargeId;
      if event.value.kind == ChargeConfirmed {
        History.ConfirmChangesFirstMatchOnly(history, id, now);
        ghost var target := History.Confirm(history, id, now);
        var i := 0;
        while i < |history|
          invariant 0 <= i <= |history|
          invariant history == old(history)
          invariant forall j :: 0 <= j < i ==> history[j].id != id
        {
          if history[i].id == id {
            assert History.FirstIndex(history, id) == i;
            history := history[i := History.MarkCompleted(history[i], now)];
            break;
          }
          i := i + 1;
        }
        assert history == target;
      }
      reply := Ok;
    }
  }

  /**
   * A payment of 25 USD in BTC whose provider charge is "ch_1", then the
   * provider's confirmation of that charge; as written the creation is
   * reported as a failure although the payment is stored.
   */
  method ExampleSession() {
    var catalog := Checkout.Catalog(map["BTC" := "Bitcoin"], {"USD"});
    var req := Checkout.CreateRequest(Checkout.Numeric(25.0), Some("USD"), Some("BTC"), None, None);
    var charge := Charge("ch_1", "https://pay.example/ch_1");
    var record := Checkout.NewRecord(Checkout.Accepted(25.0, "USD", "BTC", "Payment in Bitcoin"),
                                     charge, map["USD" := 1.0], None, 1700000000.0);

    var intended := new PaymentService();
    var created := intended.CreatePaymentIntended(req, catalog, 1700000000.0, Some(map["USD" := 1.0]), Some(charge));
    assert created == Created(record) && record.status == Pending && record.exchangeRate == 1.0;
    var ack := intended.Webhook(Some(Event(ChargeConfirmed, "ch_1")), 1700000100.0);
    assert ack == Ok;
    assert intended.history == [History.MarkCompleted(record, 1700000100.0)];

    var asWritten := new PaymentService();
    var failed := asWritten.CreatePayment(req, catalog, 1700000000.0, Some(map["USD" := 1.0]), Some(charge));
    assert failed == ServerError(Unserializable) && asWritten.history == [record];
  }
}
