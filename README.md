# CRYPTOPAY payment service: state and checks

This project models the stateful core of `cryp.py`, a Flask service that
creates Coinbase Commerce charges and records them in a payment history.
Four pieces are modelled:

- **Exchange-rate cache** (`get_exchange_rates`). One snapshot `{rates,
  timestamp}` starts as `{}` and `0`. It is reused while younger than
  `CACHE_DURATION` (3600 s) and is otherwise refreshed. A failed refresh
  returns the old rates and keeps the old timestamp.
- **Per-IP rate limiter** (`rate_limit`). A table maps each client address
  to the instants of its requests. An address with 100 or more recorded
  instants is refused. Otherwise the current instant is recorded.
- **Payment history**. `create_payment` appends one `pending` record. The
  `charge:confirmed` webhook completes the first record whose id matches.
- **Input checks of `create_payment`**. They run in the source's own
  order. The two catalogs (`SUPPORTED_CRYPTOS` and `SUPPORTED_CURRENCIES`)
  are parameters: `cryp.py` uses them but never defines them (see
  "## Left out").

Modules: `Payments` (shared datatypes), `ExchangeRates`, `RateLimit`,
`History`, `Checkout` (pure functions and lemmas), and `Service`. The
`Service.PaymentService` class holds the service's state:
- the two mutable globals, `exchange_rate_cache` and `RATE_LIMIT['ip_requests']`;
- the payment history.

The history is not a global in the source. It is the JSON file that each
request loads (cryp.py:271, 315) and saves again. The model keeps its
contents in memory, so consecutive requests see each other's changes as
they do through the file.

Each method updates this state, and its `ensures` ties the new state to a
function in the pure modules.

Some inputs come from outside the program, so they are parameters:
- the current time is `now: real`;
- the rate provider's answer is `Option<Rates>`;
- the created charge is `Option<Charge>`;
- the webhook event whose signature was checked is `Option<Event>`.

In each case `None` stands for "the call raised".

Where the code departs from what a payment service is usually expected to
do (a status only moves forward, a completion is stamped once, ids are
unique, an unknown rate is null, a bad crypto code gets a 400, a created
payment gets a 200), the model follows the code:
- a confirmation does not check the record's current status, so a failed, expired or already completed record also becomes completed;
- `completed_at` is rewritten by every confirmation (`History.ReconfirmRestamps`), so confirmations are not idempotent;
- appending does not reject a duplicate id (`History.DuplicateIdShadowsAppended`);
- the stored exchange rate falls back to `1.0`, not to a null value;
- an unknown crypto code gives a 500, not a validation error (see Findings);
- a successful creation is reported as a 500 because its reply cannot be encoded (see Findings).

`CreatePayment` and `RateLimitAsWritten` model the code as written;
`CreatePaymentIntended` and `Limit` model the corrected behaviour.

## Model

| member | source | states |
|---|---|---|
| `ExchangeRates.Get` | cryp.py:126-139 | a fresh snapshot (age below 3600) is kept and returned; on a miss a successful fetch replaces the snapshot wholesale with the fetched rates and `now`, a failed one keeps the snapshot; the returned rates are always the stored ones |
| `ExchangeRates.SnapshotSurvives` | cryp.py:127-139 | across any sequence of calls that are hits or failed refreshes, every call returns the snapshot's rates and leaves it in place |
| `ExchangeRates.NoRatesUntilAFetchSucceeds` | cryp.py:74-77 | from the start-up cache, every call returns `{}` until some refresh succeeds |
| `ExchangeRates.RefreshServesForAnHour` | cryp.py:128-136 | after a successful refresh at `now`, every call within the next hour returns the fetched rates whatever the provider would answer |
| `ExchangeRates.FailedRefreshIsRetried` | cryp.py:137-139 | a failed refresh keeps the timestamp, so a later call misses too and a fetch that then succeeds is used |
| `RateLimit.Record` | cryp.py:115-120 | admitted iff the address has fewer than 100 recorded instants; if admitted `now` is appended to its instants (a new address gets `[now]`), if refused the table is unchanged; other addresses untouched |
| `RateLimit.PruneAsWritten` | cryp.py:109-112 | the pruning comprehension succeeds, giving `{}`, only on an empty table, and raises TypeError on every other |
| `RateLimit.AsWrittenAdmitsOnlyOnce` | cryp.py:108-120 | from start-up the first request is admitted and recorded, and the next one, from any address at any instant, crashes leaving the table unchanged |
| `RateLimit.Response` | cryp.py:109-122 | an admitted request goes on to the route; a refused one gets the 429 of line 117; a crash of the pruning (TypeError, outside any `try`) gets a 500 |
| `RateLimit.StepAsWritten` | cryp.py:108-120 | the decorator as written crashes iff the table is non-empty, leaving it unchanged; on the empty table it admits and records `[now]` |
| `RateLimit.AsWrittenCrashesAfterFirst` | cryp.py:102-123 | over any sequence of requests from start-up, exactly the first is admitted and every later one crashes |
| `RateLimit.CrashesWhileNonEmpty` | cryp.py:109-112 | once the table is non-empty every request crashes |
| `RateLimit.Recent` | cryp.py:109-112 | keeps each instant within the window before `now` as many times as it occurs and drops every older one (multiset equality); all kept when all are recent, none when none are |
| `RateLimit.Prune` | cryp.py:109-112 | intended pruning: an address stays iff it has a recent instant, and it keeps exactly its recent instants |
| `RateLimit.Allow` | cryp.py:108-120 | the decorator with intended pruning never crashes; it admits iff the address has fewer than 100 recent instants, and its instants become the recent ones plus `now` if admitted, or the recent ones alone if refused; every other address keeps exactly its recent instants and is dropped when it has none |
| `RateLimit.StepWithinWindow` | cryp.py:109-120 | with intended pruning, a request inside the window of all an address's instants never crashes, prunes none of them, and is admitted and recorded iff fewer than 100 are recorded |
| `RateLimit.PruningChangesTable` | cryp.py:109-120 | with `{"a": [0]}` and a request from "b" at instant 10000, the decorator as written crashes and keeps the table, while intended pruning gives `{"b": [10000]}` and admits |
| `RateLimit.CeilingWithinWindow` | cryp.py:109-120 | with intended pruning, requests from one address within one window are admitted exactly while its recorded count is below 100, and never crash |
| `RateLimit.ExactlyMaxRequestsPerWindow` | cryp.py:80-84 | a new address gets exactly 100 admissions in one window and the 101st request is refused |
| `RateLimit.AdmissionResetsAfterWindow` | cryp.py:109-120 | once all instants of an address are a window old, its next request is admitted and its instants become `[now]` |
| `History.MarkCompleted` | cryp.py:319-321 | sets status completed and `completed_at` to `now` and changes no other field, whatever the prior status |
| `History.FirstIndex` | cryp.py:318-319 | the position of the first record with the charge id, or the length when none has it |
| `History.Confirm` | cryp.py:318-322 | the history after the confirmation loop keeps its length; its full effect is stated by `History.ConfirmChangesFirstMatchOnly` |
| `History.ConfirmChangesFirstMatchOnly` | cryp.py:312-324 | a confirmation keeps length and order and changes only the first record with the id |
| `History.UnknownChargeLeavesHistory` | cryp.py:318-327 | a confirmation for an id no record has leaves the history unchanged |
| `History.ConfirmKeepsIds` | cryp.py:318-322 | a confirmation leaves every record's id in place |
| `History.ReconfirmRestamps` | cryp.py:318-322 | confirming twice gives the history of the second confirmation alone: `completed_at` is overwritten |
| `History.ReconfirmIsNotIdempotent` | cryp.py:320-321 | a second confirmation at another instant changes a history that holds the charge |
| `History.ConfirmAfterAppend` | cryp.py:271-272 | a record appended with an id no other record has is the one a later confirmation completes, at the end |
| `History.DuplicateIdShadowsAppended` | cryp.py:271-272 | when an older record has the same id, confirmations complete the older one and the appended record stays unchanged |
| `Checkout.AmountOf` | cryp.py:202 | `float(data.get('amount', 0))`: an absent amount is 0, a number is itself, and a value `float()` refuses (a non-numeric string raises ValueError; null, a list or an object raises TypeError) is None, a 500 |
| `Checkout.CurrencyOf` | cryp.py:203 | the request's currency, or "USD" when the key is absent |
| `Checkout.CryptoOf` | cryp.py:204 | the request's crypto code, or "BTC" when the key is absent |
| `Checkout.ValidatePaymentAmount` | cryp.py:166-174 | true iff the amount is positive |
| `Checkout.CheckAsWritten` | cryp.py:202-216 | checks in the source's order: an amount `float()` refuses gives a 500; an unknown crypto gives a 500 (KeyError) whatever the amount; then a non-positive amount gives 400 "Invalid amount"; 400 "Unsupported cryptocurrency" never occurs; then an unsupported currency gives 400 "Unsupported currency"; accepted iff all pass |
| `Checkout.Check` | cryp.py:209-216 | intended order: amount, crypto, currency, each a 400 with its message; accepted iff all pass, with the request's values and the default description |
| `Checkout.CheckAgreesWithAsWritten` | cryp.py:206-216 | both accept the same requests with the same values and differ only in the reply to an unknown crypto |
| `Checkout.UnknownCryptoExample` | cryp.py:206 | a 10 USD request for crypto "XYZ" gets a 500 as written and a 400 "Unsupported cryptocurrency" as intended |
| `Checkout.RateFor` | cryp.py:220 | the cached rate of the currency, or 1.0 when there is none |
| `Checkout.NewRecord` | cryp.py:257-268 | the stored record, all eleven fields: status pending, no `completed_at`, the provider's id and hosted URL, the checked amount, currency, crypto and description, the customer email, creation instant `now`, and the exchange rate `rates.get(currency, 1.0)` |
| `Checkout.SubmitAsWritten` | cryp.py:223-284 | as written: a rejection is its own reply and saves nothing; a provider failure is a 500 and saves nothing; a created charge saves its record and then the reply is a 500, because `payment_info` holds the status enum; an accepted request never gets a success reply |
| `Checkout.Submit` | cryp.py:270-280 | as intended: an accepted request with a created charge saves its `NewRecord`; a success reply happens iff a record is saved, and it carries that record |
| `Checkout.SavedButReportedAsFailure` | cryp.py:271-284 | as written and as intended, the same record is saved; the replies differ exactly when a charge was created for an accepted request |
| `Service.PaymentService.constructor` | cryp.py:74-84 | empty cache at instant 0 and empty limiter table (lines 74-84); the history starts empty, as when no history file exists yet and loading gives `[]` (lines 146-147) |
| `Service.PaymentService.GetExchangeRates` | cryp.py:126-139 | returns what `ExchangeRates.Get` returns, and the cache becomes the snapshot `ExchangeRates.Get` gives |
| `Service.PaymentService.RecordRequest` | cryp.py:115-120 | the verdict and new table are those of `RateLimit.Record` |
| `Service.PaymentService.RateLimitAsWritten` | cryp.py:105-120 | the verdict and new table are those of `RateLimit.StepAsWritten` |
| `Service.PaymentService.Limit` | cryp.py:104-122 | the verdict and new table are those of `RateLimit.Allow` (intended pruning, then check-and-record); never crashes |
| `Service.PaymentService.SaveCharge` | cryp.py:219-273 | for an accepted request: the cache is refreshed as `ExchangeRates.Get` says; with a created charge exactly one `NewRecord` is appended at the end, and without one the history is unchanged |
| `Service.PaymentService.CreatePayment` | cryp.py:198-284 | as written: the checks of `CheckAsWritten`; a rejected request gives its reply and changes neither cache nor history; an accepted one refreshes the cache, and the reply and the appended record are those of `SubmitAsWritten` |
| `Service.PaymentService.CreatePaymentIntended` | cryp.py:198-284 | as intended: the checks of `Check`, and the reply and appended record of `Submit`; cache as in `CreatePayment` |
| `Service.PaymentService.Webhook` | cryp.py:303-330 | a verification failure gives a 500 and changes nothing; a `charge:confirmed` event changes the history as `History.Confirm` does (first matching record only); every verified event gets success |

## Left out

- `iop.py`: a thin wrapper around the same charge client, QR generation and console output, with no state and no checks of its own.
- Flask routing, JSON bodies and HTTP plumbing: replies keep only their kind (`Payments.Reply`). The decorator stacking (`rate_limit` before `create_payment` and the other routes) is modelled as two separate methods for the caller to run in order:
  - first the limiter, `RateLimitAsWritten` as written or `Limit` as intended, whose verdict `RateLimit.Response` turns into the decorator's own reply;
  - then the route, such as `CreatePayment`.
- `token_required` and the `get_payment_history` route: JWT decoding is a library call.
- The `get_currencies` and `get_crypto_rates` routes: they only return the catalogs or a constant table.
- The `get_exchange_rate` route beyond its call of `get_exchange_rates` (cryp.py:337). That call may refresh the cache, and `Service.PaymentService.GetExchangeRates` models it; the route then only returns the rates and the cache's timestamp.
- Coinbase `client.charge.create` and `Webhook.construct_event`: foreign library calls, modelled by their outcome (`Option<Charge>`, `Option<Event>`).
- `hashlib` digests (`generate_payment_hash`, the MD5 customer id) and QR/PNG encoding: foreign computations that change no state.
- File I/O of `load_payment_history` and `save_payment_history`. The history is an in-memory sequence, so effects of the file are not modelled:
  - the "missing or corrupt file reads as `[]`" fallback;
  - an ignored save failure;
  - `json.dump(default=str)` turning the status enum and datetimes into strings.
- Clocks: `time.time()` and `datetime.now()` are both the `now` parameter, and `completed_at` is that instant rather than its ISO string.
- Floating point: amounts, rates and instants are `real`. Rounding, NaN and infinities are not modelled, nor `float()` accepting values such as booleans.
- `Checkout.Catalog`: `SUPPORTED_CRYPTOS` and `SUPPORTED_CURRENCIES` are never defined in `cryp.py` (used at lines 188-189, 206, 212 and 215). As written, every create request whose amount parses therefore raises NameError at line 206 and gets a 500, and `get_currencies` fails too. The model takes the catalogs as parameters, as though they were defined.
- `Checkout.CreateRequest`: a JSON `null` is treated like a missing key. In the source, `data.get(key, default)` returns `None` for a key present with a null value. So a null crypto raises KeyError, a null currency is refused as unsupported, and a null description is stored as null. The model substitutes the default in all three cases. A null amount is not affected: `float(None)` raises TypeError, a 500, and the model writes it as `NotNumeric`.
- Malformed inputs that raise somewhere other than the checks above:
  - a request body that is not a JSON object;
  - a non-string `customer_email`;
  - a `SUPPORTED_CRYPTOS` entry without a "name";
  - an event without a charge id;
  - a history entry without an `id`.
- Logging and concurrency: the source has no locking.
- Provider calls that never answer: `requests.get(EXCHANGE_RATE_API)` (cryp.py:132) and `client.charge.create` (cryp.py:223) pass no timeout, so an unresponsive provider blocks the request indefinitely. An `Option` outcome models only an answer or an exception.

## Findings

| source | as written | input that shows it | evidently intended | confidence | as-written member | corrected member |
|---|---|---|---|---|---|---|
| cryp.py:109-112 | the pruning comprehension computes `current_time - timestamp` where `timestamp` is an address's list of instants, which raises TypeError outside any `try` | any request once the table holds one address, e.g. a second request after `{ip: [t]}` | each address keeps the instants within the window and empty ones are dropped, so admission is limited to 100 per hour | high; not executed | `RateLimit.AsWrittenCrashesAfterFirst` | `RateLimit.Prune` |
| cryp.py:275-280 | the success reply encodes `payment_info.__dict__`, whose `status` is the `PaymentStatus.PENDING` enum member (line 262); Flask's JSON encoder refuses an Enum and raises TypeError, which lines 282-284 turn into a 500 after lines 271-273 have saved the record | any accepted request for which the provider creates a charge | a 200 reply carrying the stored payment | medium (depends on the Flask JSON encoder); not executed | `Checkout.SubmitAsWritten` | `Checkout.Submit` |
| cryp.py:206 | the default description `SUPPORTED_CRYPTOS[crypto]["name"]` is evaluated before the membership check, so an unknown code raises KeyError and gives a 500; the 400 branch at lines 212-213 cannot be reached | amount 10, currency "USD", crypto "XYZ" not in the catalog | 400 "Unsupported cryptocurrency" after the amount check | high; not executed | `Checkout.CheckAsWritten` | `Checkout.Check` |

`Service.PaymentService.Limit` and
`Service.PaymentService.CreatePaymentIntended` use the corrected
definitions. `Service.PaymentService.RateLimitAsWritten` and
`Service.PaymentService.CreatePayment` keep the code as written.

For `create_payment`, two lemmas show that the corrected checks and reply
change replies, never the saved history:
- `Checkout.CheckAgreesWithAsWritten`: the corrected checks change only the reply to an unknown crypto code;
- `Checkout.SavedButReportedAsFailure`: the corrected reply changes only the reply to a created charge.

The intended pruning does change the limiter table.
`RateLimit.PruningChangesTable` shows one case: a second address arrives
when the only entry is a window old. As written, the request crashes and the
table is left alone. With the pruning, the old entry is dropped and the
request is recorded.
