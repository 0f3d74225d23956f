/**
 * The argument-or-default rule and the retry loop of `Http.command`.
 */
module Retry {
  import opened Wrappers
  import opened Requests

  /** Python truthiness of an optional number: `None` and zero are false. */
  predicate Truthy<T(==)>(arg: Option<T>, zero: T)
  {
    arg.Some? && arg.value != zero
  }

  /** Python's `arg or fallback` for an optional number. */
  function PyOr<T(==)>(arg: Option<T>, zero: T, fallback: T): (r: T)
    ensures Truthy(arg, zero) ==> r == arg.value
    ensures !Truthy(arg, zero) ==> r == fallback
    ensures r == zero ==> fallback == zero
  {
    match arg
    case None => fallback
    case Some(v) => if v != zero then v else fallback
  }

  /** Absent, `None` and `0` resolve alike; a truthy value wins over any default. */
  lemma FalsyUsesDefault<T>(zero: T, fallback: T, v: T)
    ensures PyOr(None, zero, fallback) == PyOr(Some(zero), zero, fallback) == fallback
    ensures v != zero ==> PyOr(Some(v), zero, fallback) == v
  {
  }

  /** What `command` ends with, and how many attempts it made. */
  datatype Run = Run(result: Result<Response, Failure>, attempts: nat)

  /**
   * The attempts of `for loop in range(1, 2 + retries)` from attempt `loop` on;
   * `replies(k)` is the reply attempt `k` gets.
   */
  function RunFrom(replies: nat -> Reply, loop: nat, retries: int): (run: Run)
    requires 1 <= loop
    ensures loop <= retries + 1 ==> loop <= run.attempts <= retries + 1
    ensures run.result == Failure(UnboundResponse) ==> loop > retries + 1
    decreases 2 + retries - loop
  {
    if loop >= 2 + retries then Run(Failure(UnboundResponse), loop - 1)
    else match replies(loop)
      case Raised(e) => Run(Failure(Transport(e)), loop)
      case Answered(resp) =>
        if !IsErrorStatus(resp.status) then Run(Success(resp), loop)
        else if loop <= retries then RunFrom(replies, loop + 1, retries)
        else Run(Failure(HttpError(resp.status)), loop)
  }

  /**
   * The whole loop of `command` with effective retry count `retries`: at least
   * one and at most `retries + 1` attempts, none at all when `retries` is negative.
   */
  function Execute(replies: nat -> Reply, retries: int): (run: Run)
    ensures retries >= 0 ==> 1 <= run.attempts <= retries + 1
    ensures retries < 0 ==> run == Run(Failure(UnboundResponse), 0)
  {
    RunFrom(replies, 1, retries)
  }

  /** The shape of every run: earlier attempts were HTTP errors, the last decides. */
  lemma {:induction false} RunFromShape(replies: nat -> Reply, loop: nat, retries: int)
    requires 1 <= loop <= retries + 1
    ensures var run := RunFrom(replies, loop, retries);
      && (forall j :: loop <= j < run.attempts ==> IsHttpError(replies(j)))
      && (run.result.Success? ==> replies(run.attempts) == Answered(run.result.value) && IsOk(replies(run.attempts)))
      && (run.result.Failure? && run.result.error.Transport? ==> replies(run.attempts) == Raised(run.result.error.error))
      && (run.result.Failure? && run.result.error.HttpError? ==>
            run.attempts == retries + 1 && IsHttpError(replies(run.attempts))
            && replies(run.attempts).resp.status == run.result.error.status)
      && (run.result.Failure? ==> run.result.error.HttpError? || run.result.error.Transport?)
    decreases retries + 1 - loop
  {
    if IsHttpError(replies(loop)) && loop <= retries {
      RunFromShape(replies, loop + 1, retries);
    }
  }

  lemma {:induction false} AllFailFrom(replies: nat -> Reply, loop: nat, retries: int)
    requires 1 <= loop <= retries + 1
    requires forall k :: loop <= k <= retries + 1 ==> IsHttpError(replies(k))
    ensures IsHttpError(replies(retries + 1))
    ensures RunFrom(replies, loop, retries) ==
      Run(Failure(HttpError(replies(retries + 1).resp.status)), retries + 1)
    decreases retries + 1 - loop
  {
    if loop <= retries {
      AllFailFrom(replies, loop + 1, retries);
    }
  }

  /**
   * `command` raises the HTTP error of attempt `retries + 1` exactly when
   * every one of the `retries + 1` attempts failed with an HTTP error.
   */
  lemma AllAttemptsFail(replies: nat -> Reply, retries: int)
    ensures (retries >= 0 && forall k :: 1 <= k <= retries + 1 ==> IsHttpError(replies(k)))
      <==> Execute(replies, retries).result.Failure? && Execute(replies, retries).result.error.HttpError?
    ensures (retries >= 0 && forall k :: 1 <= k <= retries + 1 ==> IsHttpError(replies(k))) ==>
      IsHttpError(replies(retries + 1)) &&
      Execute(replies, retries) == Run(Failure(HttpError(replies(retries + 1).resp.status)), retries + 1)
  {
    if retries >= 0 {
      RunFromShape(replies, 1, retries);
      if forall k :: 1 <= k <= retries + 1 ==> IsHttpError(replies(k)) {
        AllFailFrom(replies, 1, retries);
      }
    }
  }

  lemma {:induction false} FirstSuccessFrom(replies: nat -> Reply, loop: nat, retries: int, k: nat)
    requires 1 <= loop <= k <= retries + 1
    requires forall j :: loop <= j < k ==> IsHttpError(replies(j))
    requires IsOk(replies(k))
    ensures RunFrom(replies, loop, retries) == Run(Success(replies(k).resp), k)
    decreases k - loop
  {
    if loop < k {
      FirstSuccessFrom(replies, loop + 1, retries, k);
    }
  }

  /**
   * `command` returns the response of attempt `k` after exactly `k` attempts
   * when attempt `k` is within budget, passes, and all earlier ones failed
   * with an HTTP error (each retried since its number was at most `retries`);
   * and every success is of that form.
   */
  lemma FirstSuccess(replies: nat -> Reply, retries: int, k: nat)
    ensures (1 <= k <= retries + 1 && IsOk(replies(k)) && forall j :: 1 <= j < k ==> IsHttpError(replies(j)))
      ==> Execute(replies, retries) == Run(Success(replies(k).resp), k)
    ensures var run := Execute(replies, retries);
      run.result.Success? ==>
        && 1 <= run.attempts <= retries + 1
        && replies(run.attempts) == Answered(run.result.value) && IsOk(replies(run.attempts))
        && forall j :: 1 <= j < run.attempts ==> IsHttpError(replies(j))
  {
    if 1 <= k <= retries + 1 && IsOk(replies(k)) && forall j :: 1 <= j < k ==> IsHttpError(replies(j)) {
      FirstSuccessFrom(replies, 1, retries, k);
    }
    if retries >= 0 {
      RunFromShape(replies, 1, retries);
    }
  }

  /** A library exception ends the loop at once: no retry follows it. */
  lemma TransportErrorStops(replies: nat -> Reply, retries: int, k: nat)
    requires 1 <= k <= retries + 1
    requires forall j :: 1 <= j < k ==> IsHttpError(replies(j))
    requires replies(k).Raised?
    ensures Execute(replies, retries) == Run(Failure(Transport(replies(k).error)), k)
  {
    RunFromShape(replies, 1, retries);
  }

  /** Two server errors, then 200, with two or more retries: the third attempt answers. */
  lemma ServerErrorsThenOk(replies: nat -> Reply, retries: int, ok: Response)
    requires retries >= 2
    requires replies(1) == replies(2) == Answered(Response(500, ""))
    requires replies(3) == Answered(ok) && ok.status == 200
    ensures Execute(replies, retries) == Run(Success(ok), 3)
  {
    FirstSuccess(replies, retries, 3);
  }
}
