/**
 * The exchange-rate cache behind `get_exchange_rates`: one snapshot of rates
 * with the instant it was fetched, reused while younger than an hour and
 * otherwise refreshed, falling back to the old rates when the fetch fails.
 */
module ExchangeRates {
  import opened Payments

  /** CACHE_DURATION, in seconds. */
  const CacheDuration: real := 3600.0

  datatype Snapshot = Snapshot(rates: Rates, timestamp: real)

  /** The cache at start-up: no rates, fetched at instant 0. */
  const Initial: Snapshot := Snapshot(map[], 0.0)

  predicate IsFresh(s: Snapshot, now: real) {
    now - s.timestamp < CacheDuration
  }

  /** The snapshot after one call and the rates that call returns. */
  datatype Lookup = Lookup(snapshot: Snapshot, rates: Rates)

  /**
   * One call at instant `now`. `fetched` is what the rate provider would give
   * if asked: Some(rates) when the request and the JSON decoding succeed,
   * None when either raises. It is consulted only on a miss.
   */
  function Get(s: Snapshot, now: real, fetched: Option<Rates>): (r: Lookup)
    ensures r.rates == r.snapshot.rates
    ensures IsFresh(s, now) ==> r.snapshot == s
    ensures !IsFresh(s, now) && fetched.Some? ==> r.snapshot == Snapshot(fetched.value, now)
    ensures !IsFresh(s, now) && fetched.None? ==> r.snapshot == s
  {
    if IsFresh(s, now) then Lookup(s, s.rates)
    else match fetched
      case Some(latest) => Lookup(Snapshot(latest, now), latest)
      case None => Lookup(s, s.rates)
  }

  /** One call of a sequence: its instant and the fetch outcome it would see. */
  datatype Call = Call(now: real, fetched: Option<Rates>)

  /** The lookups of consecutive calls, each starting from the previous snapshot. */
  function Replay(s: Snapshot, calls: seq<Call>): (r: seq<Lookup>)
    ensures |r| == |calls|
    decreases |calls|
  {
    if calls == [] then []
    else
      var l := Get(s, calls[0].now, calls[0].fetched);
      [l] + Replay(l.snapshot, calls[1..])
  }

  /**
   * A snapshot survives every call that is either a hit or a failed refresh:
   * each such call returns its rates and leaves it in place.
   */
  lemma {:induction false} SnapshotSurvives(s: Snapshot, calls: seq<Call>)
    requires forall k :: 0 <= k < |calls| ==> IsFresh(s, calls[k].now) || calls[k].fetched.None?
    ensures forall k :: 0 <= k < |calls| ==> Replay(s, calls)[k] == Lookup(s, s.rates)
  {
    if calls != [] {
      assert Get(s, calls[0].now, calls[0].fetched) == Lookup(s, s.rates);
      SnapshotSurvives(s, calls[1..]);
      forall k | 0 <= k < |calls|
        ensures Replay(s, calls)[k] == Lookup(s, s.rates)
      {
        if k > 0 {
          assert Replay(s, calls)[k] == Replay(s, calls[1..])[k - 1];
        }
      }
    }
  }

  /** Until some refresh succeeds, every call returns the empty start-up rates. */
  lemma NoRatesUntilAFetchSucceeds(calls: seq<Call>)
    requires forall k :: 0 <= k < |calls| ==> calls[k].fetched.None?
    ensures forall k :: 0 <= k < |calls| ==> Replay(Initial, calls)[k].rates == map[]
  {
    SnapshotSurvives(Initial, calls);
  }

  /**
   * After a successful refresh at `now`, calls within the next hour are hits
   * on the fetched rates, whatever the rate provider would say.
   */
  lemma {:induction false} RefreshServesForAnHour(s: Snapshot, now: real, latest: Rates, calls: seq<Call>)
    requires !IsFresh(s, now)
    requires forall k :: 0 <= k < |calls| ==> calls[k].now - now < CacheDuration
    ensures Get(s, now, Some(latest)) == Lookup(Snapshot(latest, now), latest)
    ensures forall k :: 0 <= k < |calls| ==> Replay(Get(s, now, Some(latest)).snapshot, calls)[k].rates == latest
  {
    SnapshotSurvives(Snapshot(latest, now), calls);
  }

  /**
   * A failed refresh leaves the fetch instant alone, so a later call is a miss
   * too and tries the rate provider again.
   */
  lemma FailedRefreshIsRetried(s: Snapshot, t1: real, t2: real, latest: Rates)
    requires !IsFresh(s, t1) && t1 <= t2
    ensures Get(s, t1, None) == Lookup(s, s.rates)
    ensures Get(Get(s, t1, None).snapshot, t2, Some(latest)) == Lookup(Snapshot(latest, t2), latest)
  {
  }
}
