/** `Client.robust` (cdsapi/api.py:260-295): retry a call on a connection error
    or a retriable status, at most `retry_max` times, sleeping `sleep_max`
    seconds after every failed attempt. */
module Retry {
  import opened Outcomes
  import opened Logging
  import opened Protocol

  /** An attempt the wrapper does not return: a connection error or a retriable status. */
  predicate Failed(o: Outcome)
  {
    o.ConnectionError? || Retriable(o.response.status)
  }

  function Max0(n: int): nat
  {
    if n < 0 then 0 else n
  }

  /** The number of leading failed attempts among the first `n`. */
  function FirstAccepted(attempts: seq<Outcome>, n: nat): (i: nat)
    requires n <= |attempts|
    ensures i <= n
    ensures forall j :: 0 <= j < i ==> Failed(attempts[j])
    ensures i < n ==> !Failed(attempts[i])
  {
    if n == 0 then 0
    else
      var i := FirstAccepted(attempts, n - 1);
      if i < n - 1 then i else if Failed(attempts[n - 1]) then n else n - 1
  }

  /** The warning attempt number `tries` logs when it fails. */
  function Recovering(cfg: Settings, tries: int, o: Outcome): Message
  {
    if o.ConnectionError? then RecoveringFromConnectionError(o.error, tries, cfg.retryMax)
    else RecoveringFromHttpError(o.response.status, tries, cfg.retryMax)
  }

  /** What failed attempt number `tries` logs and sleeps. */
  function FailureLog(cfg: Settings, tries: int, o: Outcome): seq<Event>
  {
    [Log(cfg, Warning, Recovering(cfg, tries, o)), Log(cfg, Warning, RetryingIn(cfg.sleepMax)), Slept(cfg.sleepMax)]
  }

  /** The log of the first `n` attempts, all failed. */
  function FailureLogs(cfg: Settings, attempts: seq<Outcome>, n: nat): seq<Event>
    requires n <= |attempts|
  {
    if n == 0 then [] else FailureLogs(cfg, attempts, n - 1) + FailureLog(cfg, n - 1, attempts[n - 1])
  }

  /** What one wrapped call gives: the response returned (or None), the log, and
      how many times the wrapped call was invoked. */
  datatype Attempted = Attempted(response: Option<Response>, log: seq<Event>, calls: nat)

  /** `robust(call)(...)` when the wrapped call's successive attempts are `attempts`. */
  function Robust(cfg: Settings, attempts: seq<Outcome>): Attempted
    requires |attempts| >= cfg.retryMax
  {
    var n := Max0(cfg.retryMax);
    var i := FirstAccepted(attempts, n);
    if i < n then Attempted(Some(attempts[i].response), FailureLogs(cfg, attempts, i), i + 1)
    else Attempted(None, FailureLogs(cfg, attempts, n), n)
  }

  /** At most `retry_max` invocations; the first response with a status that is
      not retriable is returned unchanged, whatever its status; None comes back
      exactly when all `retry_max` attempts failed, after all of them. */
  lemma RobustContract(cfg: Settings, attempts: seq<Outcome>)
    requires |attempts| >= cfg.retryMax
    ensures Robust(cfg, attempts).calls <= Max0(cfg.retryMax)
    ensures cfg.retryMax <= 0 ==> Robust(cfg, attempts) == Attempted(None, [], 0)
    ensures Robust(cfg, attempts).response.Some? <==>
      exists i :: 0 <= i < cfg.retryMax && !Failed(attempts[i])
    ensures var r := Robust(cfg, attempts);
      r.response.Some? ==>
        && r.calls >= 1
        && attempts[r.calls - 1] == Received(r.response.value)
        && !Retriable(r.response.value.status)
        && forall j :: 0 <= j < r.calls - 1 ==> Failed(attempts[j])
    ensures var r := Robust(cfg, attempts);
      r.response.None? ==>
        r.calls == Max0(cfg.retryMax) && forall j :: 0 <= j < r.calls ==> Failed(attempts[j])
  {
    var r := Robust(cfg, attempts);
    if exists i :: 0 <= i < cfg.retryMax && !Failed(attempts[i]) {
      var i :| 0 <= i < cfg.retryMax && !Failed(attempts[i]);
      assert FirstAccepted(attempts, Max0(cfg.retryMax)) <= i;
    }
  }

  /** Every failed attempt, the last one included, logs the recovery warning
      that names its attempt number (a connection error, or the HTTP status),
      then one "Retrying" warning, then a `sleep(sleep_max)`. */
  lemma {:induction false} FailureLogsShape(cfg: Settings, attempts: seq<Outcome>, n: nat)
    requires n <= |attempts|
    ensures |FailureLogs(cfg, attempts, n)| == 3 * n
    ensures forall i :: 0 <= i < n ==>
      && FailureLogs(cfg, attempts, n)[3 * i] == Log(cfg, Warning, Recovering(cfg, i, attempts[i]))
      && FailureLogs(cfg, attempts, n)[3 * i + 1] == Log(cfg, Warning, RetryingIn(cfg.sleepMax))
      && FailureLogs(cfg, attempts, n)[3 * i + 2] == Slept(cfg.sleepMax)
  {
    if n > 0 {
      FailureLogsShape(cfg, attempts, n - 1);
      var prev := FailureLogs(cfg, attempts, n - 1);
      var all := FailureLogs(cfg, attempts, n);
      assert all == prev + FailureLog(cfg, n - 1, attempts[n - 1]);
      forall i | 0 <= i < n
        ensures all[3 * i] == Log(cfg, Warning, Recovering(cfg, i, attempts[i]))
        ensures all[3 * i + 1] == Log(cfg, Warning, RetryingIn(cfg.sleepMax))
        ensures all[3 * i + 2] == Slept(cfg.sleepMax)
      {
        if i < n - 1 {
          assert all[3 * i] == prev[3 * i];
          assert all[3 * i + 1] == prev[3 * i + 1];
          assert all[3 * i + 2] == prev[3 * i + 2];
        }
      }
    }
  }
}
