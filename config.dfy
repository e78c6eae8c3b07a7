/** Startup validation of the daemon's options. Every check is an accept/reject
    decision; the first check that fails aborts startup with its error.
    The options are named after the program's variables, not its flags:
    refreshTtl is read from the flag "ttl-refresh" and refreshInterval from
    the flag "ttl". */
module Config {

  datatype Options = Options(
    refreshTtl: int,
    refreshInterval: int,
    retryAttempts: int,
    retryInterval: int,
    deregister: string)

  datatype ConfigError =
    | TtlNotTogether           // the two TTL options are not both zero or both set
    | TtlNotGreater            // refreshTtl does not exceed refreshInterval
    | RetryIntervalNotPositive // the retry interval is zero or negative
    | DeregisterUnknown        // the deregister mode is neither "always" nor "on-success"

  datatype Check = Pass | Fail(error: ConfigError)

  /** The TTL pair check. Its accepted set, stated in closed form: a negative
      refreshTtl always passes, a zero refreshTtl passes with a non-positive
      refreshInterval, and a positive refreshTtl passes when it is larger than a
      non-zero refreshInterval (which may be negative). */
  function CheckTtl(refreshTtl: int, refreshInterval: int): (c: Check)
    ensures c == Pass <==>
              refreshTtl < 0
              || (refreshTtl == 0 && refreshInterval <= 0)
              || (refreshTtl > 0 && refreshInterval != 0 && refreshTtl > refreshInterval)
    ensures c == Fail(TtlNotTogether) <==>
              (refreshTtl == 0 && refreshInterval > 0) || (refreshTtl > 0 && refreshInterval == 0)
    ensures c == Fail(TtlNotGreater) ==> refreshTtl > 0 && refreshInterval > 0
    ensures c != Fail(RetryIntervalNotPositive) && c != Fail(DeregisterUnknown)
  {
    if (refreshTtl == 0 && refreshInterval > 0) || (refreshTtl > 0 && refreshInterval == 0) then
      Fail(TtlNotTogether)
    else if refreshTtl > 0 && refreshTtl <= refreshInterval then
      Fail(TtlNotGreater)
    else
      Pass
  }

  /** The retry interval (milliseconds between connection attempts) must be positive. */
  function CheckRetryInterval(retryInterval: int): (c: Check)
    ensures c == Pass <==> retryInterval > 0
    ensures c != Pass ==> c == Fail(RetryIntervalNotPositive)
  {
    if retryInterval <= 0 then Fail(RetryIntervalNotPositive) else Pass
  }

  /** The deregister mode must be one of the two recognised words. */
  function CheckDeregister(deregister: string): (c: Check)
    ensures c == Pass <==> deregister in {"always", "on-success"}
    ensures c != Pass ==> c == Fail(DeregisterUnknown)
  {
    if deregister != "always" && deregister != "on-success" then Fail(DeregisterUnknown) else Pass
  }

  /** The three option checks in the order the daemon runs them; the first
      failure decides the error. */
  function Validate(o: Options): (c: Check)
    ensures c == Pass <==>
              CheckTtl(o.refreshTtl, o.refreshInterval) == Pass
              && o.retryInterval > 0
              && o.deregister in {"always", "on-success"}
    ensures CheckTtl(o.refreshTtl, o.refreshInterval).Fail? ==> c == CheckTtl(o.refreshTtl, o.refreshInterval)
    ensures c == Fail(RetryIntervalNotPositive) <==>
              CheckTtl(o.refreshTtl, o.refreshInterval) == Pass && o.retryInterval <= 0
    ensures c == Fail(DeregisterUnknown) <==>
              CheckTtl(o.refreshTtl, o.refreshInterval) == Pass && o.retryInterval > 0
              && o.deregister !in {"always", "on-success"}
  {
    var ttl := CheckTtl(o.refreshTtl, o.refreshInterval);
    if ttl.Fail? then ttl
    else
      var retry := CheckRetryInterval(o.retryInterval);
      if retry.Fail? then retry
      else CheckDeregister(o.deregister)
  }

  /** The both-or-neither rule, in the direction the code uses and without the
      negative cases: both options unset, or both positive with refreshTtl the
      larger. */
  predicate PairedTtl(refreshTtl: int, refreshInterval: int)
  {
    (refreshTtl == 0 && refreshInterval == 0)
    || (refreshTtl > 0 && refreshInterval > 0 && refreshTtl > refreshInterval)
  }

  /** The check accepts every pair the both-or-neither rule (in the code's
      direction) accepts, and on non-negative values the two agree exactly. */
  lemma TtlCheckAgreesOnNonNegative(refreshTtl: int, refreshInterval: int)
    ensures PairedTtl(refreshTtl, refreshInterval) ==> CheckTtl(refreshTtl, refreshInterval) == Pass
    ensures refreshTtl >= 0 && refreshInterval >= 0 ==>
              (CheckTtl(refreshTtl, refreshInterval) == Pass <==> PairedTtl(refreshTtl, refreshInterval))
  {
  }

  /** Negative values are not rejected, although the error text asks for the
      two options "together or not at all": a negative refreshTtl passes
      whatever refreshInterval is, and so does a zero or positive refreshTtl
      over a negative refreshInterval. */
  lemma NegativeTtlSlipsThrough(refreshTtl: int, refreshInterval: int)
    requires refreshTtl < 0 || (refreshTtl >= 0 && refreshInterval < 0)
    ensures CheckTtl(refreshTtl, refreshInterval) == Pass
    ensures !PairedTtl(refreshTtl, refreshInterval)
  {
  }

  /** The error text asks for "-ttl" (refreshInterval) to be greater than
      "-ttl-refresh" (refreshTtl). Every positive pair that satisfies the text
      is refused, with that very error. */
  lemma ErrorTextDirectionRejected(refreshTtl: int, refreshInterval: int)
    requires 0 < refreshTtl < refreshInterval
    ensures CheckTtl(refreshTtl, refreshInterval) == Fail(TtlNotGreater)
  {
  }

  /** Boundary cases of the TTL check, in the code's variable terms, and of the
      retry and deregister checks. */
  lemma ValidationExamples()
    ensures CheckTtl(0, 0) == Pass
    ensures CheckTtl(0, 5) == Fail(TtlNotTogether)
    ensures CheckTtl(5, 0) == Fail(TtlNotTogether)
    ensures CheckTtl(5, 5) == Fail(TtlNotGreater)
    ensures CheckTtl(10, 5) == Pass
    ensures CheckTtl(5, 10) == Fail(TtlNotGreater)
    ensures CheckRetryInterval(0) == Fail(RetryIntervalNotPositive)
    ensures CheckRetryInterval(1) == Pass
    ensures CheckDeregister("always") == Pass && CheckDeregister("on-success") == Pass
    ensures CheckDeregister("never") == Fail(DeregisterUnknown)
    ensures CheckDeregister("") == Fail(DeregisterUnknown)
  {
  }

  /** With the flags "-ttl 10 -ttl-refresh 5" (refreshInterval = 10,
      refreshTtl = 5) startup is refused with the "greater than" error, although
      the flag named by that error's text is the larger one. */
  lemma FlagTtlTenRefreshFiveRejected()
    ensures Validate(Options(5, 10, 0, 2000, "always")) == Fail(TtlNotGreater)
    ensures Validate(Options(10, 5, 0, 2000, "always")) == Pass
  {
  }
}
