/**
 * The per-IP rate limiter of the `rate_limit` decorator: a table from client
 * address to the instants of its recorded requests, a ceiling of 100 requests
 * and a window of an hour.
 */
module RateLimit {
  import opened Payments

  /** RATE_LIMIT['requests'] and RATE_LIMIT['window'] (seconds). */
  const MaxRequests: nat := 100
  const Window: real := 3600.0

  /** RATE_LIMIT['ip_requests']. */
  type Table = map<string, seq<real>>

  /** The instants recorded for `ip`, none for an address never seen. */
  function Entries(t: Table, ip: string): seq<real> {
    if ip in t then t[ip] else []
  }

  datatype Decision = Decision(admitted: bool, table: Table)

  /**
   * The check-and-record step: a known address with MaxRequests or more
   * recorded instants is refused and nothing changes; otherwise `now` is
   * appended to that address's instants, and to no one else's.
   */
  function Record(t: Table, ip: string, now: real): (d: Decision)
    ensures d.admitted <==> |Entries(t, ip)| < MaxRequests
    ensures d.table.Keys == if d.admitted then t.Keys + {ip} else t.Keys
    ensures Entries(d.table, ip) == if d.admitted then Entries(t, ip) + [now] else Entries(t, ip)
    ensures forall other :: other in t && other != ip ==> d.table[other] == t[other]
  {
    if ip in t then
      if |t[ip]| >= MaxRequests then Decision(false, t)
      else Decision(true, t[ip := t[ip] + [now]])
    else Decision(true, t[ip := [now]])
  }

  /** What the decorator does with a request. */
  datatype Verdict = Admit | Reject | Crash

  datatype Step = Step(verdict: Verdict, table: Table)

  /**
   * The reply the decorator itself gives, or None when it hands the request
   * on to the route: a refusal is the 429, and the TypeError of the pruning,
   * raised outside any `try`, reaches Flask as a 500.
   */
  function Response(v: Verdict): (r: Option<Reply>)
    ensures r.None? <==> v == Admit
    ensures v == Reject ==> r == Some(TooManyRequests)
    ensures v == Crash ==> r == Some(ServerError(TypeError))
  {
    match v
    case Admit => None
    case Reject => Some(TooManyRequests)
    case Crash => Some(ServerError(TypeError))
  }

  /**
   * The pruning comprehension as written: it subtracts each address's list of
   * instants from the current time, which raises TypeError as soon as there
   * is one address in the table. An empty table comprehends to an empty one.
   */
  function PruneAsWritten(t: Table, now: real): (r: Option<Table>)
    ensures r.Some? <==> t == map[]
    ensures r.Some? ==> r.value == map[]
  {
    if |t| == 0 then Some(map[]) else None
  }

  /** The decorator as written: prune, and when that does not raise, check and record. */
  function StepAsWritten(t: Table, ip: string, now: real): (s: Step)
    ensures s.verdict == Crash <==> t != map[]
    ensures s.verdict == Crash ==> s.table == t
    ensures t == map[] ==> s == Step(Admit, map[ip := [now]])
  {
    match PruneAsWritten(t, now)
    case None => Step(Crash, t)
    case Some(pruned) =>
      var d := Record(pruned, ip, now);
      Step(if d.admitted then Admit else Reject, d.table)
  }

  /**
   * The limiter as written admits only the very first request it ever sees:
   * that one records an instant, and every request after it crashes in the
   * pruning step without changing the table.
   */
  lemma AsWrittenAdmitsOnlyOnce(ip: string, now: real, ip2: string, later: real)
    ensures StepAsWritten(map[], ip, now) == Step(Admit, map[ip := [now]])
    ensures StepAsWritten(map[ip := [now]], ip2, later) == Step(Crash, map[ip := [now]])
  {
    assert ip in map[ip := [now]];
  }

  /** Consecutive requests from possibly different addresses to the limiter as written. */
  function ReplayAsWritten(t: Table, requests: seq<(string, real)>): (vs: seq<Verdict>)
    ensures |vs| == |requests|
    decreases |requests|
  {
    if requests == [] then []
    else
      var s := StepAsWritten(t, requests[0].0, requests[0].1);
      [s.verdict] + ReplayAsWritten(s.table, requests[1..])
  }

  /** From start-up, every request but the first crashes. */
  lemma {:induction false} AsWrittenCrashesAfterFirst(requests: seq<(string, real)>)
    ensures forall k :: 0 <= k < |requests| ==>
      (ReplayAsWritten(map[], requests)[k] == Admit <==> k == 0) &&
      (k > 0 ==> ReplayAsWritten(map[], requests)[k] == Crash)
  {
    if requests != [] {
      var s := StepAsWritten(map[], requests[0].0, requests[0].1);
      assert requests[0].0 in s.table;
      CrashesWhileNonEmpty(s.table, requests[1..]);
    }
  }

  lemma {:induction false} CrashesWhileNonEmpty(t: Table, requests: seq<(string, real)>)
    requires t != map[]
    ensures forall k :: 0 <= k < |requests| ==> ReplayAsWritten(t, requests)[k] == Crash
  {
    if requests != [] {
      CrashesWhileNonEmpty(t, requests[1..]);
    }
  }

  /** The instants of `s` that lie within the window before `now`, in order. */
  function Recent(s: seq<real>, now: real): (r: seq<real>)
    ensures |r| <= |s|
    ensures forall x :: x in r <==> x in s && now - x < Window
    ensures forall x :: multiset(r)[x] == if now - x < Window then multiset(s)[x] else 0
    ensures (forall x :: x in s ==> now - x < Window) ==> r == s
    ensures (forall x :: x in s ==> now - x >= Window) ==> r == []
  {
    if s == [] then []
    else
      assert s == [s[0]] + s[1..] && s[0] in s && forall x :: x in s[1..] ==> x in s;
      assert multiset(s) == multiset{s[0]} + multiset(s[1..]);
      if now - s[0] < Window then [s[0]] + Recent(s[1..], now)
      else Recent(s[1..], now)
  }

  /**
   * The pruning evidently intended: every address keeps the instants within
   * the window, and an address left with none is dropped.
   */
  function Prune(t: Table, now: real): (r: Table)
    ensures forall ip :: ip in r <==> ip in t && Recent(t[ip], now) != []
    ensures forall ip :: ip in t ==> Entries(r, ip) == Recent(t[ip], now)
  {
    map ip | ip in t && Recent(t[ip], now) != [] :: Recent(t[ip], now)
  }

  /** The decorator with the intended pruning. */
  function Allow(t: Table, ip: string, now: real): (s: Step)
    ensures s.verdict != Crash
    ensures s.verdict == Admit <==> |Recent(Entries(t, ip), now)| < MaxRequests
    ensures Entries(s.table, ip) ==
      if s.verdict == Admit then Recent(Entries(t, ip), now) + [now] else Recent(Entries(t, ip), now)
    ensures ip in s.table
    ensures forall other :: other != ip ==>
      (other in s.table <==> other in t && Recent(t[other], now) != []) &&
      Entries(s.table, other) == Recent(Entries(t, other), now)
  {
    var d := Record(Prune(t, now), ip, now);
    Step(if d.admitted then Admit else Reject, d.table)
  }

  /** Consecutive requests from one address to the limiter with intended pruning. */
  function Replay(t: Table, ip: string, times: seq<real>): (vs: seq<Verdict>)
    ensures |vs| == |times|
    decreases |times|
  {
    if times == [] then []
    else
      var s := Allow(t, ip, times[0]);
      [s.verdict] + Replay(s.table, ip, times[1..])
  }

  /** One request within the window: nothing of the address is pruned, and it is recorded iff admitted. */
  lemma StepWithinWindow(t: Table, ip: string, now: real, start: real)
    requires forall x :: x in Entries(t, ip) ==> start <= x
    requires start <= now < start + Window
    ensures Recent(Entries(t, ip), now) == Entries(t, ip)
    ensures Allow(t, ip, now).verdict != Crash
    ensures Allow(t, ip, now).verdict == Admit <==> |Entries(t, ip)| < MaxRequests
    ensures |Entries(Allow(t, ip, now).table, ip)| ==
      if Allow(t, ip, now).verdict == Admit then |Entries(t, ip)| + 1 else |Entries(t, ip)|
    ensures forall x :: x in Entries(Allow(t, ip, now).table, ip) ==> start <= x
  {
    var e := Entries(t, ip);
    assert Recent(e, now) == e;
    var s := Allow(t, ip, now);
    forall x | x in Entries(s.table, ip) ensures start <= x {
      if x !in e { assert x == now; }
    }
  }

  /**
   * Within one window the requests of an address are admitted exactly while
   * its recorded instants number fewer than MaxRequests; none ever crashes.
   */
  lemma {:induction false} CeilingWithinWindow(t: Table, ip: string, times: seq<real>, start: real)
    requires forall x :: x in Entries(t, ip) ==> start <= x
    requires forall k :: 0 <= k < |times| ==> start <= times[k] < start + Window
    ensures forall k :: 0 <= k < |times| ==>
      (Replay(t, ip, times)[k] == Admit <==> |Entries(t, ip)| + k < MaxRequests) &&
      Replay(t, ip, times)[k] != Crash
    decreases |times|
  {
    if times != [] {
      var s := Allow(t, ip, times[0]);
      StepWithinWindow(t, ip, times[0], start);
      CeilingWithinWindow(s.table, ip, times[1..], start);
      forall k | 0 <= k < |times|
        ensures (Replay(t, ip, times)[k] == Admit <==> |Entries(t, ip)| + k < MaxRequests)
        ensures Replay(t, ip, times)[k] != Crash
      {
        if k > 0 {
          assert Replay(t, ip, times)[k] == Replay(s.table, ip, times[1..])[k - 1];
        }
      }
    }
  }

  /**
   * The intended pruning changes the table where the code as written leaves
   * it: an entry a window old blocks every request as written, and is dropped
   * when pruned.
   */
  lemma PruningChangesTable()
    ensures StepAsWritten(map["a" := [0.0]], "b", 10000.0) == Step(Crash, map["a" := [0.0]])
    ensures Allow(map["a" := [0.0]], "b", 10000.0) == Step(Admit, map["b" := [10000.0]])
  {
    assert Recent([0.0], 10000.0) == [];
    assert Prune(map["a" := [0.0]], 10000.0) == map[];
  }

  /**
   * An address never seen before gets exactly MaxRequests requests within one
   * window; the next one within that window is refused.
   */
  lemma ExactlyMaxRequestsPerWindow(t: Table, ip: string, times: seq<real>, start: real)
    requires ip !in t
    requires |times| == MaxRequests + 1
    requires forall k :: 0 <= k < |times| ==> start <= times[k] < start + Window
    ensures forall k :: 0 <= k < MaxRequests ==> Replay(t, ip, times)[k] == Admit
    ensures Replay(t, ip, times)[MaxRequests] == Reject
  {
    CeilingWithinWindow(t, ip, times, start);
  }

  /** Once all of an address's instants are a window old, it starts afresh. */
  lemma AdmissionResetsAfterWindow(t: Table, ip: string, now: real)
    requires forall x :: x in Entries(t, ip) ==> now - x >= Window
    ensures Allow(t, ip, now).verdict == Admit
    ensures Entries(Allow(t, ip, now).table, ip) == [now]
  {
    if ip in t {
      assert forall x :: x in t[ip] ==> x in Entries(t, ip);
    }
  }
}
