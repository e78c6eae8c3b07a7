/** Connection establishment: the backend is pinged until it answers, with a
    sleep after every failed attempt. retryAttempts bounds the number of
    retries after the first attempt; -1 means retry forever, and a value below
    -1 skips the loop altogether. The outcomes of successive pings are an
    input sequence; when it runs out while the daemon is still retrying, the
    observation ends undecided. */
module Connect {

  /** One observable step of the loop: a ping with its outcome, or a sleep of
      the retry interval (in milliseconds). */
  datatype Step = Ping(ok: bool) | Sleep(millis: int)

  datatype Outcome =
    | Connected  // a ping succeeded; startup continues
    | Skipped    // retryAttempts < -1: no ping at all, startup continues
    | Exhausted  // the last permitted ping failed: fatal
    | Undecided  // the ping outcomes ran out while still retrying

  /** What one run of the loop produces: its outcome, the final attempt
      counter, and the steps in order. */
  datatype Result = Result(outcome: Outcome, attempt: int, trace: seq<Step>)

  /** k failed attempts, each followed by its sleep. */
  function Retries(k: nat, millis: int): (s: seq<Step>)
    ensures |s| == 2 * k
    ensures forall i :: 0 <= i < |s| ==> s[i] == if i % 2 == 0 then Ping(false) else Sleep(millis)
  {
    if k == 0 then [] else Retries(k - 1, millis) + [Ping(false), Sleep(millis)]
  }

  /** Index of the first successful ping, or the length when none succeeds. */
  function FirstOk(pings: seq<bool>): (k: nat)
    ensures k <= |pings|
    ensures forall j :: 0 <= j < k ==> !pings[j]
    ensures k < |pings| ==> pings[k]
  {
    if pings == [] then 0
    else if pings[0] then 0
    else 1 + FirstOk(pings[1..])
  }

  /** The behaviour of the loop in closed form. */
  function Expected(pings: seq<bool>, retryAttempts: int, retryInterval: int): (r: Result)
    ensures r.outcome == Skipped <==> retryAttempts < -1
    ensures r.outcome == Exhausted ==> retryAttempts >= 0 && r.attempt == retryAttempts
    ensures r.outcome == Undecided ==> r.attempt == |pings| && (retryAttempts == -1 || |pings| <= retryAttempts)
    ensures r.outcome == Connected ==> 0 <= r.attempt < |pings| && pings[r.attempt]
  {
    if retryAttempts < -1 then Result(Skipped, 0, [])
    else
      var k := FirstOk(pings);
      if k < |pings| && (retryAttempts == -1 || k <= retryAttempts) then
        Result(Connected, k, Retries(k, retryInterval) + [Ping(true)])
      else if 0 <= retryAttempts < |pings| then
        Result(Exhausted, retryAttempts, Retries(retryAttempts, retryInterval) + [Ping(false)])
      else
        Result(Undecided, |pings|, Retries(|pings|, retryInterval))
  }

  /** The retry loop. */
  method Establish(pings: seq<bool>, retryAttempts: int, retryInterval: int)
    returns (outcome: Outcome, attempt: int, trace: seq<Step>)
    ensures Result(outcome, attempt, trace) == Expected(pings, retryAttempts, retryInterval)
  {
    outcome := Skipped;
    attempt := 0;
    trace := [];
    while retryAttempts == -1 || attempt <= retryAttempts
      invariant 0 <= attempt <= |pings|
      invariant retryAttempts >= -1 ==> retryAttempts == -1 || attempt <= retryAttempts
      invariant retryAttempts < -1 ==> attempt == 0
      invariant forall j :: 0 <= j < attempt ==> !pings[j]
      invariant trace == Retries(attempt, retryInterval)
      invariant outcome == Skipped
      decreases |pings| - attempt
    {
      if attempt == |pings| {
        outcome := Undecided;
        return;
      }
      var ok := pings[attempt];
      trace := trace + [Ping(ok)];
      if ok {
        outcome := Connected;
        break;
      }
      if attempt == retryAttempts {
        outcome := Exhausted;
        return;
      }
      trace := trace + [Sleep(retryInterval)];
      attempt := attempt + 1;
    }
  }

  /** Number of pings in a trace. */
  function PingCount(s: seq<Step>): nat
  {
    if s == [] then 0 else PingCount(s[..|s| - 1]) + (if s[|s| - 1].Ping? then 1 else 0)
  }

  /** Number of sleeps in a trace. */
  function SleepCount(s: seq<Step>): nat
  {
    if s == [] then 0 else SleepCount(s[..|s| - 1]) + (if s[|s| - 1].Sleep? then 1 else 0)
  }

  /** Total time slept, in milliseconds. */
  function Slept(s: seq<Step>): int
  {
    if s == [] then 0 else Slept(s[..|s| - 1]) + (if s[|s| - 1].Sleep? then s[|s| - 1].millis else 0)
  }

  /** The outcomes of the pings in a trace, in order. */
  function PingResults(s: seq<Step>): seq<bool>
  {
    if s == [] then []
    else PingResults(s[..|s| - 1]) + (if s[|s| - 1].Ping? then [s[|s| - 1].ok] else [])
  }

  lemma {:induction false} RetriesCounts(k: nat, millis: int)
    ensures PingCount(Retries(k, millis)) == k
    ensures SleepCount(Retries(k, millis)) == k
    ensures Slept(Retries(k, millis)) == k * millis
    ensures PingResults(Retries(k, millis)) == seq(k, _ => false)
  {
    if k > 0 {
      RetriesCounts(k - 1, millis);
      var p := Retries(k - 1, millis);
      var q := p + [Ping(false)];
      assert Retries(k, millis) == q + [Sleep(millis)];
      assert (q + [Sleep(millis)])[..|q|] == q;
      assert q[..|p|] == p;
      assert seq(k - 1, _ => false) + [false] == seq(k, _ => false);
    }
  }

  /** The counts of a trace that ends with one more ping after k retries. */
  lemma RetriesThenPing(k: nat, millis: int, ok: bool)
    ensures PingCount(Retries(k, millis) + [Ping(ok)]) == k + 1
    ensures SleepCount(Retries(k, millis) + [Ping(ok)]) == k
    ensures Slept(Retries(k, millis) + [Ping(ok)]) == k * millis
    ensures PingResults(Retries(k, millis) + [Ping(ok)]) == seq(k, _ => false) + [ok]
  {
    RetriesCounts(k, millis);
    var p := Retries(k, millis);
    assert (p + [Ping(ok)])[..|p|] == p;
  }

  /** Ping always failing with retryAttempts = N >= 0: exactly N + 1 pings,
      exactly N sleeps, all before the last ping, N * retryInterval slept, and
      the fatal outcome. */
  lemma AlwaysFailingExhausts(pings: seq<bool>, n: int, retryInterval: int)
    requires 0 <= n < |pings|
    requires forall j :: 0 <= j <= n ==> !pings[j]
    ensures var r := Expected(pings, n, retryInterval);
            r.outcome == Exhausted
            && r.attempt == n
            && PingCount(r.trace) == n + 1
            && SleepCount(r.trace) == n
            && Slept(r.trace) == n * retryInterval
            && r.trace[|r.trace| - 1] == Ping(false)
            && SleepCount(r.trace[..|r.trace| - 1]) == n
  {
    RetriesThenPing(n, retryInterval, false);
    RetriesCounts(n, retryInterval);
    var p := Retries(n, retryInterval);
    assert (p + [Ping(false)])[..|p|] == p;
  }

  /** K failures before the first success, within the permitted attempts
      (retryAttempts = -1, or K <= retryAttempts): success, exactly K + 1 pings,
      K sleeps, and the counter ends at K. */
  lemma SucceedsAfterFailures(pings: seq<bool>, retryAttempts: int, k: nat, retryInterval: int)
    requires retryAttempts == -1 || k <= retryAttempts
    requires k < |pings|
    requires forall j :: 0 <= j < k ==> !pings[j]
    requires pings[k]
    ensures var r := Expected(pings, retryAttempts, retryInterval);
            r.outcome == Connected
            && r.attempt == k
            && PingCount(r.trace) == k + 1
            && SleepCount(r.trace) == k
  {
    RetriesThenPing(k, retryInterval, true);
  }

  /** With the default retryAttempts = 0 there is exactly one attempt and no
      sleep: a first success connects, a first failure is fatal whatever the
      later outcomes would be. */
  lemma DefaultSingleAttempt(pings: seq<bool>, retryInterval: int)
    requires |pings| >= 1
    ensures var r := Expected(pings, 0, retryInterval);
            r.outcome == (if pings[0] then Connected else Exhausted)
            && r.attempt == 0
            && r.trace == [Ping(pings[0])]
  {
  }

  /** Unbounded retries never reach the fatal exhaustion branch. */
  lemma UnboundedNeverExhausts(pings: seq<bool>, retryInterval: int)
    ensures Expected(pings, -1, retryInterval).outcome != Exhausted
  {
  }

  /** A successful ping ends the loop at once: it is the last step, no other
      ping succeeded, and it follows exactly attempt sleeps. */
  lemma SuccessEndsLoop(pings: seq<bool>, retryAttempts: int, retryInterval: int)
    requires Expected(pings, retryAttempts, retryInterval).outcome == Connected
    ensures var r := Expected(pings, retryAttempts, retryInterval);
            && r.trace[|r.trace| - 1] == Ping(true)
            && (forall i :: 0 <= i < |r.trace| - 1 ==> r.trace[i] != Ping(true))
            && PingCount(r.trace) == r.attempt + 1
            && SleepCount(r.trace) == r.attempt
  {
    var r := Expected(pings, retryAttempts, retryInterval);
    RetriesThenPing(r.attempt, retryInterval, true);
    var p := Retries(r.attempt, retryInterval);
    assert r.trace == p + [Ping(true)];
    assert forall i :: 0 <= i < |r.trace| - 1 ==> r.trace[i] == p[i];
  }

  /** With retryAttempts >= 0 there are never more than retryAttempts + 1 pings. */
  lemma PingsBounded(pings: seq<bool>, retryAttempts: int, retryInterval: int)
    requires retryAttempts >= 0
    ensures PingCount(Expected(pings, retryAttempts, retryInterval).trace) <= retryAttempts + 1
  {
    var r := Expected(pings, retryAttempts, retryInterval);
    match r.outcome
    case Connected => RetriesThenPing(r.attempt, retryInterval, true);
    case Exhausted => RetriesThenPing(r.attempt, retryInterval, false);
    case Undecided => RetriesCounts(|pings|, retryInterval);
  }

  /** The pings in the trace consume the ping outcomes in order, from the first:
      the loop never skips or reorders an attempt. */
  lemma PingsConsumedInOrder(pings: seq<bool>, retryAttempts: int, retryInterval: int)
    ensures PingResults(Expected(pings, retryAttempts, retryInterval).trace) <= pings
  {
    var t := Expected(pings, retryAttempts, retryInterval).trace;
    var n: nat := 0;
    if retryAttempts >= -1 {
      var k := FirstOk(pings);
      if k < |pings| && (retryAttempts == -1 || k <= retryAttempts) {
        assert t == Retries(k, retryInterval) + [Ping(true)];
        FailuresThenPing(pings, k, retryInterval, true);
        n := k + 1;
      } else if 0 <= retryAttempts < |pings| {
        assert t == Retries(retryAttempts, retryInterval) + [Ping(false)];
        FailuresThenPing(pings, retryAttempts, retryInterval, false);
        n := retryAttempts + 1;
      } else {
        assert t == Retries(|pings|, retryInterval);
        UndecidedConsumesAll(pings, retryInterval);
        n := |pings|;
      }
    } else {
      assert t == [];
    }
    assert n <= |pings| && PingResults(t) == pings[..n];
  }

  /** Running out of outcomes means every outcome was consumed, and all failed. */
  lemma UndecidedConsumesAll(pings: seq<bool>, retryInterval: int)
    requires forall j :: 0 <= j < |pings| ==> !pings[j]
    ensures var t := Retries(|pings|, retryInterval);
            PingResults(t) == pings
  {
    RetriesCounts(|pings|, retryInterval);
    FailedPrefix(pings, |pings|);
  }

  /** n failed pings followed by one more consume exactly the first n + 1 outcomes. */
  lemma FailuresThenPing(pings: seq<bool>, n: nat, retryInterval: int, ok: bool)
    requires n < |pings|
    requires forall j :: 0 <= j < n ==> !pings[j]
    requires pings[n] == ok
    ensures PingResults(Retries(n, retryInterval) + [Ping(ok)]) == pings[..n + 1]
  {
    RetriesThenPing(n, retryInterval, ok);
    FailedPrefix(pings, n);
    assert pings[..n + 1] == pings[..n] + [pings[n]];
  }

  lemma FailedPrefix(pings: seq<bool>, n: nat)
    requires n <= |pings|
    requires forall j :: 0 <= j < n ==> !pings[j]
    ensures pings[..n] == seq(n, _ => false)
  {
  }

  /** A value below -1 turns the loop off: no ping, no sleep, no fatal error. */
  lemma BelowMinusOneSkips(pings: seq<bool>, retryAttempts: int, retryInterval: int)
    requires retryAttempts < -1
    ensures var r := Expected(pings, retryAttempts, retryInterval);
            r.outcome == Skipped && PingCount(r.trace) == 0 && SleepCount(r.trace) == 0
  {
  }
}
