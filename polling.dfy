/** The readiness check of `LlamaServer.is_running` as a pure specification.
    Every iteration of the polling loop issues one health request; the
    answers come from an oracle, one per request. Two budgets are kept apart:
    `cur_attempt` counts connection errors and `model_loading_time` counts
    HTTP 503 answers (one second of waiting each). */
module Polling {

  /** One health request's outcome: the connection failed, or an HTTP status. */
  datatype Response = ConnectionError | Status(code: int)

  /** The answer to the `n`-th health request of one readiness check. */
  type HealthOracle = nat -> Response

  const HttpOk: int := 200
  const HttpServiceUnavailable: int := 503

  /** Why the check ended. */
  datatype Reason =
    | Ready
    | NoProcess
    | UnexpectedStatus(code: int)
    | ConnectionAttemptsExhausted
    | ModelLoadingTimedOut

  /** The result of one readiness check: the boolean `is_running` returns,
      how many health requests it issued, how many short sleeps followed a
      retried connection error, and how many one-second sleeps followed a
      tolerated 503. */
  datatype Verdict = Verdict(ready: bool, requests: nat, shortSleeps: nat, loadingSleeps: nat, reason: Reason)

  function Pos(x: int): nat {
    if x > 0 then x else 0
  }

  /** The iterations both budgets still allow to be retried. */
  function Budget(maxConnectionAttempts: int, maxWait: int, curAttempt: nat, loadingTime: nat): nat {
    Pos(maxConnectionAttempts - curAttempt) + Pos(maxWait + 1 - loadingTime)
  }

  /** The loop from the request with index `n` on, with `cur_attempt == curAttempt`
      and `model_loading_time == loadingTime`. */
  function Poll(health: HealthOracle, maxConnectionAttempts: int, maxWait: int,
                n: nat, curAttempt: nat, loadingTime: nat): Verdict
    decreases Budget(maxConnectionAttempts, maxWait, curAttempt, loadingTime)
  {
    match health(n)
    case Status(code) =>
      if code == HttpServiceUnavailable then
        if loadingTime > maxWait then Verdict(false, n + 1, curAttempt, loadingTime, ModelLoadingTimedOut)
        else Poll(health, maxConnectionAttempts, maxWait, n + 1, curAttempt, loadingTime + 1)
      else if code == HttpOk then Verdict(true, n + 1, curAttempt, loadingTime, Ready)
      else Verdict(false, n + 1, curAttempt, loadingTime, UnexpectedStatus(code))
    case ConnectionError =>
      if curAttempt + 1 > maxConnectionAttempts then
        Verdict(false, n + 1, curAttempt, loadingTime, ConnectionAttemptsExhausted)
      else Poll(health, maxConnectionAttempts, maxWait, n + 1, curAttempt + 1, loadingTime)
  }

  /** The whole readiness check of a server that owns a process. */
  function Readiness(health: HealthOracle, maxConnectionAttempts: int, maxWait: int): Verdict {
    Poll(health, maxConnectionAttempts, maxWait, 0, 0, 0)
  }

  /** The readiness check, including the case of a server with no process. */
  function Check(hasProcess: bool, health: HealthOracle, maxConnectionAttempts: int, maxWait: int): Verdict {
    if hasProcess then Readiness(health, maxConnectionAttempts, maxWait)
    else Verdict(false, 0, 0, 0, NoProcess)
  }

  // ---------------------------------------------------------------------
  // A closed-form description of the loop: it stops at the first request
  // whose answer ends it, given how many connection errors and 503s came
  // before that request.

  function ConnectionErrorsBefore(health: HealthOracle, i: nat): nat {
    if i == 0 then 0
    else ConnectionErrorsBefore(health, i - 1) + (if health(i - 1).ConnectionError? then 1 else 0)
  }

  function LoadingBefore(health: HealthOracle, i: nat): nat {
    if i == 0 then 0
    else LoadingBefore(health, i - 1) + (if health(i - 1) == Status(HttpServiceUnavailable) then 1 else 0)
  }

  /** The loop returns after the request with index `i`. */
  predicate StopsAt(health: HealthOracle, maxConnectionAttempts: int, maxWait: int, i: nat) {
    match health(i)
    case ConnectionError => ConnectionErrorsBefore(health, i) + 1 > maxConnectionAttempts
    case Status(code) => code != HttpServiceUnavailable || LoadingBefore(health, i) > maxWait
  }

  /** The reason the loop gives when it stops on `r`. */
  function StopReason(r: Response): Reason {
    match r
    case ConnectionError => ConnectionAttemptsExhausted
    case Status(code) =>
      if code == HttpOk then Ready
      else if code == HttpServiceUnavailable then ModelLoadingTimedOut
      else UnexpectedStatus(code)
  }

  lemma {:induction false} PollFirstStop(health: HealthOracle, maxConnectionAttempts: int, maxWait: int,
                                         n: nat, curAttempt: nat, loadingTime: nat)
    requires curAttempt == ConnectionErrorsBefore(health, n)
    requires loadingTime == LoadingBefore(health, n)
    requires curAttempt <= Pos(maxConnectionAttempts) && loadingTime <= Pos(maxWait + 1)
    ensures var v := Poll(health, maxConnectionAttempts, maxWait, n, curAttempt, loadingTime);
      && n < v.requests
      && StopsAt(health, maxConnectionAttempts, maxWait, v.requests - 1)
      && (forall j :: n <= j < v.requests - 1 ==> !StopsAt(health, maxConnectionAttempts, maxWait, j))
      && v.shortSleeps == ConnectionErrorsBefore(health, v.requests - 1) <= Pos(maxConnectionAttempts)
      && v.loadingSleeps == LoadingBefore(health, v.requests - 1) <= Pos(maxWait + 1)
      && v.reason == StopReason(health(v.requests - 1))
      && (v.ready <==> health(v.requests - 1) == Status(HttpOk))
    decreases Budget(maxConnectionAttempts, maxWait, curAttempt, loadingTime)
  {
    match health(n)
    case Status(code) =>
      if code == HttpServiceUnavailable && loadingTime <= maxWait {
        PollFirstStop(health, maxConnectionAttempts, maxWait, n + 1, curAttempt, loadingTime + 1);
      }
    case ConnectionError =>
      if curAttempt + 1 <= maxConnectionAttempts {
        PollFirstStop(health, maxConnectionAttempts, maxWait, n + 1, curAttempt + 1, loadingTime);
      }
  }

  /** The exact outcome of the check: it issues requests up to and including
      the first one that stops the loop, and that request's answer decides
      the result; the sleeps taken are the connection errors and 503s before it. */
  lemma ReadinessFirstStop(health: HealthOracle, maxConnectionAttempts: int, maxWait: int)
    ensures var v := Readiness(health, maxConnectionAttempts, maxWait);
      && 0 < v.requests
      && StopsAt(health, maxConnectionAttempts, maxWait, v.requests - 1)
      && (forall j :: 0 <= j < v.requests - 1 ==> !StopsAt(health, maxConnectionAttempts, maxWait, j))
      && v.shortSleeps == ConnectionErrorsBefore(health, v.requests - 1) <= Pos(maxConnectionAttempts)
      && v.loadingSleeps == LoadingBefore(health, v.requests - 1) <= Pos(maxWait + 1)
      && v.reason == StopReason(health(v.requests - 1))
      && (v.ready <==> health(v.requests - 1) == Status(HttpOk))
  {
    PollFirstStop(health, maxConnectionAttempts, maxWait, 0, 0, 0);
  }

  lemma {:induction false} PollBound(health: HealthOracle, maxConnectionAttempts: int, maxWait: int,
                                     n: nat, curAttempt: nat, loadingTime: nat)
    ensures var v := Poll(health, maxConnectionAttempts, maxWait, n, curAttempt, loadingTime);
      && v.requests <= n + Budget(maxConnectionAttempts, maxWait, curAttempt, loadingTime) + 1
      && curAttempt <= v.shortSleeps && loadingTime <= v.loadingSleeps
      && v.requests - n == (v.shortSleeps - curAttempt) + (v.loadingSleeps - loadingTime) + 1
    decreases Budget(maxConnectionAttempts, maxWait, curAttempt, loadingTime)
  {
    match health(n)
    case Status(code) =>
      if code == HttpServiceUnavailable && loadingTime <= maxWait {
        PollBound(health, maxConnectionAttempts, maxWait, n + 1, curAttempt, loadingTime + 1);
      }
    case ConnectionError =>
      if curAttempt + 1 <= maxConnectionAttempts {
        PollBound(health, maxConnectionAttempts, maxWait, n + 1, curAttempt + 1, loadingTime);
      }
  }

  /** The loop always ends, within `max_connection_attempts + max_wait + 2`
      requests for non-negative bounds; every request but the last is
      followed by exactly one sleep. */
  lemma ReadinessTerminates(health: HealthOracle, maxConnectionAttempts: int, maxWait: int)
    ensures var v := Readiness(health, maxConnectionAttempts, maxWait);
      && 1 <= v.requests <= Pos(maxConnectionAttempts) + Pos(maxWait + 1) + 1
      && (0 <= maxConnectionAttempts && 0 <= maxWait ==> v.requests <= maxConnectionAttempts + maxWait + 2)
      && v.requests == v.shortSleeps + v.loadingSleeps + 1
  {
    PollBound(health, maxConnectionAttempts, maxWait, 0, 0, 0);
  }

  lemma {:induction false} CountsMonotone(health: HealthOracle, i: nat, k: nat)
    requires i <= k
    ensures ConnectionErrorsBefore(health, i) <= ConnectionErrorsBefore(health, k)
    ensures LoadingBefore(health, i) <= LoadingBefore(health, k)
    decreases k - i
  {
    if i < k {
      CountsMonotone(health, i, k - 1);
    }
  }

  /** Every answer before index `k` is one the loop retries: a connection
      error or a 503, with neither budget exceeded. */
  predicate Tolerated(health: HealthOracle, maxConnectionAttempts: int, maxWait: int, k: nat) {
    && (forall j :: 0 <= j < k ==> health(j).ConnectionError? || health(j) == Status(HttpServiceUnavailable))
    && ConnectionErrorsBefore(health, k) <= Pos(maxConnectionAttempts)
    && LoadingBefore(health, k) <= Pos(maxWait + 1)
  }

  lemma ToleratedPrefixContinues(health: HealthOracle, maxConnectionAttempts: int, maxWait: int, k: nat, j: nat)
    requires Tolerated(health, maxConnectionAttempts, maxWait, k)
    requires j < k
    ensures !StopsAt(health, maxConnectionAttempts, maxWait, j)
  {
    CountsMonotone(health, j + 1, k);
  }

  /** The first request that stops the loop is the last one issued. */
  lemma FirstStopIsLast(health: HealthOracle, maxConnectionAttempts: int, maxWait: int, k: nat)
    requires StopsAt(health, maxConnectionAttempts, maxWait, k)
    requires forall j :: 0 <= j < k ==> !StopsAt(health, maxConnectionAttempts, maxWait, j)
    ensures Readiness(health, maxConnectionAttempts, maxWait).requests == k + 1
  {
    ReadinessFirstStop(health, maxConnectionAttempts, maxWait);
  }

  /** Statuses other than 503 end the check at once: after a tolerated prefix,
      a 200 at index `k` makes it return true and any other non-503 status
      makes it return false, in both cases after exactly `k + 1` requests. */
  lemma TerminalStatus(health: HealthOracle, maxConnectionAttempts: int, maxWait: int, k: nat)
    requires Tolerated(health, maxConnectionAttempts, maxWait, k)
    requires health(k).Status? && health(k).code != HttpServiceUnavailable
    ensures var v := Readiness(health, maxConnectionAttempts, maxWait);
      && v.requests == k + 1
      && (v.ready <==> health(k).code == HttpOk)
      && v.reason == (if health(k).code == HttpOk then Ready else UnexpectedStatus(health(k).code))
  {
    forall j | 0 <= j < k ensures !StopsAt(health, maxConnectionAttempts, maxWait, j) {
      ToleratedPrefixContinues(health, maxConnectionAttempts, maxWait, k, j);
    }
    FirstStopIsLast(health, maxConnectionAttempts, maxWait, k);
    ReadinessFirstStop(health, maxConnectionAttempts, maxWait);
  }

  /** The check returns true exactly when answer 200 follows a tolerated
      prefix, and is then the last request issued. */
  lemma ReadyIff(health: HealthOracle, maxConnectionAttempts: int, maxWait: int)
    ensures var v := Readiness(health, maxConnectionAttempts, maxWait);
      v.ready ==> 0 < v.requests && Tolerated(health, maxConnectionAttempts, maxWait, v.requests - 1)
                  && health(v.requests - 1) == Status(HttpOk)
    ensures forall k: nat :: Tolerated(health, maxConnectionAttempts, maxWait, k) && health(k) == Status(HttpOk) ==>
      Readiness(health, maxConnectionAttempts, maxWait).ready && Readiness(health, maxConnectionAttempts, maxWait).requests == k + 1
  {
    ReadinessFirstStop(health, maxConnectionAttempts, maxWait);
    var v := Readiness(health, maxConnectionAttempts, maxWait);
    if v.ready {
      var s := v.requests - 1;
      forall j | 0 <= j < s
        ensures health(j).ConnectionError? || health(j) == Status(HttpServiceUnavailable)
      {
        assert !StopsAt(health, maxConnectionAttempts, maxWait, j);
      }
    }
    forall k: nat | Tolerated(health, maxConnectionAttempts, maxWait, k) && health(k) == Status(HttpOk)
      ensures v.ready && v.requests == k + 1
    {
      TerminalStatus(health, maxConnectionAttempts, maxWait, k);
    }
  }

  lemma {:induction false} AllConnectionErrorsCounted(health: HealthOracle, k: nat)
    requires forall j :: 0 <= j < k ==> health(j) == ConnectionError
    ensures ConnectionErrorsBefore(health, k) == k
    decreases k
  {
    if k > 0 {
      AllConnectionErrorsCounted(health, k - 1);
    }
  }

  lemma {:induction false} AllLoadingCounted(health: HealthOracle, k: nat)
    requires forall j :: 0 <= j < k ==> health(j) == Status(HttpServiceUnavailable)
    ensures LoadingBefore(health, k) == k
    decreases k
  {
    if k > 0 {
      AllLoadingCounted(health, k - 1);
    }
  }

  /** The connection budget: the first `max_connection_attempts` errors are
      retried, and error number `max_connection_attempts + 1` ends the check
      with false. */
  lemma ConnectionBudget(health: HealthOracle, maxConnectionAttempts: int, maxWait: int)
    requires 0 <= maxConnectionAttempts
    requires forall j :: 0 <= j <= maxConnectionAttempts ==> health(j) == ConnectionError
    ensures var v := Readiness(health, maxConnectionAttempts, maxWait);
      && !v.ready && v.requests == maxConnectionAttempts + 1
      && v.reason == ConnectionAttemptsExhausted
      && v.shortSleeps == maxConnectionAttempts && v.loadingSleeps == 0
  {
    forall j | 0 <= j < maxConnectionAttempts ensures !StopsAt(health, maxConnectionAttempts, maxWait, j) {
      AllConnectionErrorsCounted(health, j);
    }
    AllConnectionErrorsCounted(health, maxConnectionAttempts);
    FirstStopIsLast(health, maxConnectionAttempts, maxWait, maxConnectionAttempts);
    ReadinessFirstStop(health, maxConnectionAttempts, maxWait);
    AllLoadingNone(health, maxConnectionAttempts);
  }

  lemma {:induction false} AllLoadingNone(health: HealthOracle, k: nat)
    requires forall j :: 0 <= j < k ==> health(j) == ConnectionError
    ensures LoadingBefore(health, k) == 0
    decreases k
  {
    if k > 0 {
      AllLoadingNone(health, k - 1);
    }
  }

  lemma {:induction false} AllConnectionNone(health: HealthOracle, k: nat)
    requires forall j :: 0 <= j < k ==> health(j) == Status(HttpServiceUnavailable)
    ensures ConnectionErrorsBefore(health, k) == 0
    decreases k
  {
    if k > 0 {
      AllConnectionNone(health, k - 1);
    }
  }

  /** The loading budget: 503 answers are tolerated `max_wait + 1` times, and
      the next one ends the check with false. */
  lemma LoadingBudget(health: HealthOracle, maxConnectionAttempts: int, maxWait: int)
    requires 0 <= maxWait
    requires forall j :: 0 <= j <= maxWait + 1 ==> health(j) == Status(HttpServiceUnavailable)
    ensures var v := Readiness(health, maxConnectionAttempts, maxWait);
      && !v.ready && v.requests == maxWait + 2
      && v.reason == ModelLoadingTimedOut
      && v.loadingSleeps == maxWait + 1 && v.shortSleeps == 0
  {
    forall j | 0 <= j < maxWait + 1 ensures !StopsAt(health, maxConnectionAttempts, maxWait, j) {
      AllLoadingCounted(health, j);
    }
    AllLoadingCounted(health, maxWait + 1);
    FirstStopIsLast(health, maxConnectionAttempts, maxWait, maxWait + 1);
    ReadinessFirstStop(health, maxConnectionAttempts, maxWait);
    AllConnectionNone(health, maxWait + 1);
  }

  /** `max_wait + 1` answers of 503 followed by a 200 still end in readiness. */
  lemma LoadingWithinBudget(health: HealthOracle, maxConnectionAttempts: int, maxWait: int)
    requires 0 <= maxWait
    requires forall j :: 0 <= j <= maxWait ==> health(j) == Status(HttpServiceUnavailable)
    requires health(maxWait + 1) == Status(HttpOk)
    ensures var v := Readiness(health, maxConnectionAttempts, maxWait);
      v.ready && v.requests == maxWait + 2 && v.loadingSleeps == maxWait + 1
  {
    AllLoadingCounted(health, maxWait + 1);
    AllConnectionNone(health, maxWait + 1);
    TerminalStatus(health, maxConnectionAttempts, maxWait, maxWait + 1);
    ReadinessFirstStop(health, maxConnectionAttempts, maxWait);
  }

  /** 503 answers never touch the connection budget and connection errors
      never touch the loading budget: the worst case uses both budgets in
      full, in `max_connection_attempts + max_wait + 2` requests. */
  lemma BoundIsReached(health: HealthOracle, maxConnectionAttempts: int, maxWait: int)
    requires 0 <= maxConnectionAttempts && 0 <= maxWait
    requires forall j :: 0 <= j < maxConnectionAttempts ==> health(j) == ConnectionError
    requires forall j :: maxConnectionAttempts <= j ==> health(j) == Status(HttpServiceUnavailable)
    ensures var v := Readiness(health, maxConnectionAttempts, maxWait);
      && !v.ready && v.requests == maxConnectionAttempts + maxWait + 2
      && v.shortSleeps == maxConnectionAttempts && v.loadingSleeps == maxWait + 1
  {
    var c := maxConnectionAttempts;
    var stop := c + maxWait + 1;
    forall j | 0 <= j < stop ensures !StopsAt(health, maxConnectionAttempts, maxWait, j) {
      ConnectionThenLoadingCounts(health, c, j);
    }
    ConnectionThenLoadingCounts(health, c, stop);
    FirstStopIsLast(health, maxConnectionAttempts, maxWait, stop);
    ReadinessFirstStop(health, maxConnectionAttempts, maxWait);
  }

  lemma {:induction false} ConnectionThenLoadingCounts(health: HealthOracle, c: nat, k: nat)
    requires forall j :: 0 <= j < c ==> health(j) == ConnectionError
    requires forall j :: c <= j ==> health(j) == Status(HttpServiceUnavailable)
    ensures ConnectionErrorsBefore(health, k) == if k < c then k else c
    ensures LoadingBefore(health, k) == if k < c then 0 else k - c
    decreases k
  {
    if k > 0 {
      ConnectionThenLoadingCounts(health, c, k - 1);
    }
  }
}
