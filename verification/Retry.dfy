/** What a failed upstream attempt means (internal/gateway/retry.go, and outcomeOf of
    internal/gateway/breaker.go): repeat it, move to the next target, or give up. Durations are in
    nanoseconds, the jitter draw is a real in [0, 1). */
module Retry {
  import opened Basics
  import Breaker

  const BASE_DELAY := 250_000_000
  const MAX_DELAY := 2_000_000_000

  /** An adapter's description of a failure; an upstream status of zero means no answer arrived. */
  datatype ProviderError = ProviderError(
    status: int,
    kind: string,
    clientInput: bool,
    notSent: bool,
    retryable: bool,
    upstreamStatus: int,
    upstreamRetryDelay: int)

  /** A failed attempt, by the first of these its error chain contains. */
  datatype AttemptError =
    | TargetConfig(inner: ProviderError)
    | Adapter(pe: ProviderError)
    | DeadlineExceeded
    | Canceled
    | Other

  datatype Reason = NoReason | ConfigReason | TimeoutReason | ServerErrorReason | DialReason | RateLimitedReason | UnavailableReason

  datatype Class = Class(reason: Reason, retry: bool, fallback: bool, retryAfter: int)

  const TERMINAL := Class(NoReason, false, false, 0)

  function FallbackFor(reason: Reason): Class { Class(reason, false, true, 0) }

  function WithRetryAfter(reason: Reason, pe: ProviderError): Class {
    if pe.retryable && pe.upstreamRetryDelay <= MAX_DELAY
    then Class(reason, true, true, pe.upstreamRetryDelay)
    else FallbackFor(reason)
  }

  function Classify(err: AttemptError): Class {
    match err
    case TargetConfig(_) => FallbackFor(ConfigReason)
    case DeadlineExceeded => FallbackFor(TimeoutReason)
    case Canceled => TERMINAL
    case Other => FallbackFor(ServerErrorReason)
    case Adapter(pe) =>
      if pe.clientInput then TERMINAL
      else if pe.notSent then Class(DialReason, pe.retryable, true, 0)
      else
        var answered := pe.upstreamStatus != 0;
        var status := if answered then pe.upstreamStatus else pe.status;
        if answered && status == 429 then WithRetryAfter(RateLimitedReason, pe)
        else if status == 503 || (answered && status == 529) then WithRetryAfter(UnavailableReason, pe)
        else if status == 504 || pe.kind == "timeout" then FallbackFor(TimeoutReason)
        else if status >= 500 then FallbackFor(ServerErrorReason)
        else if answered && (status == 401 || status == 403 || status == 404) then FallbackFor(ConfigReason)
        else TERMINAL
  }

  /** The status a failure is judged by. */
  function Verdict(pe: ProviderError): int {
    if pe.upstreamStatus != 0 then pe.upstreamStatus else pe.status
  }

  /** Failures that belong to the request and not to the target. */
  ghost predicate RequestsOwnFault(err: AttemptError) {
    || err.Canceled?
    || (err.Adapter? && err.pe.clientInput)
    || (err.Adapter? && !err.pe.notSent && Verdict(err.pe) < 500 && err.pe.kind != "timeout"
        && err.pe.upstreamStatus !in {401, 403, 404, 429})
  }

  /** Failures worth repeating on the same target. */
  ghost predicate Transient(err: AttemptError) {
    && err.Adapter? && !err.pe.clientInput && err.pe.retryable
    && (err.pe.notSent
        || (err.pe.upstreamRetryDelay <= MAX_DELAY
            && (err.pe.upstreamStatus == 429 || err.pe.upstreamStatus == 529 || Verdict(err.pe) == 503)))
  }

  /** The classification table: the walk ends exactly on the request's own failures, the same target
      is tried again exactly on transient ones, every other class names a reason, and the delay to be
      waited for is the one the upstream asked for, never longer than the longest single wait. */
  lemma ClassTable(err: AttemptError)
    ensures var cl := Classify(err);
      && (cl == TERMINAL <==> RequestsOwnFault(err))
      && (cl.fallback <==> !RequestsOwnFault(err))
      && (cl.fallback <==> cl.reason != NoReason)
      && (cl.retry <==> Transient(err))
      && (cl.retry ==> cl.fallback && cl.retryAfter <= MAX_DELAY)
      && cl.retryAfter == (if cl.retry && !err.pe.notSent then err.pe.upstreamRetryDelay else 0)
  {
    if err.Adapter? {
      assert err.pe.upstreamStatus in {401, 403, 404, 429} <==>
        err.pe.upstreamStatus == 401 || err.pe.upstreamStatus == 403 || err.pe.upstreamStatus == 404 || err.pe.upstreamStatus == 429;
    }
  }

  /** How an attempt reads to the breaker: `gone` says the client's context ended, `status` is what the
      request record says after an attempt that reported no error. */
  function OutcomeOf(gone: bool, err: Option<AttemptError>, status: int): Breaker.Outcome {
    if gone then Breaker.Neutral
    else if err.None? then
      if status == CLIENT_CLOSED || status == BAD_GATEWAY then Breaker.Neutral else Breaker.Success
    else
      var reason := Classify(err.value).reason;
      if reason == NoReason || reason == ConfigReason then Breaker.Neutral else Breaker.Failure
  }

  /** Failures that belong to the target's configuration: it could not be built, or the upstream answered that
      the credentials or the model are wrong. */
  ghost predicate ConfigFault(err: AttemptError) {
    || err.TargetConfig?
    || (err.Adapter? && !err.pe.clientInput && !err.pe.notSent && err.pe.kind != "timeout"
        && (err.pe.upstreamStatus == 401 || err.pe.upstreamStatus == 403 || err.pe.upstreamStatus == 404))
  }

  /** The breaker counts exactly the faults that are neither the request's nor the target's own
      configuration, and none once the client has gone. */
  lemma CountedFailures(gone: bool, err: AttemptError, status: int)
    ensures OutcomeOf(gone, Some(err), status).Failure? <==>
      !gone && !RequestsOwnFault(err) && !ConfigFault(err)
    ensures !OutcomeOf(gone, Some(err), status).Success?
  {
    ClassTable(err);
  }

  // ----- waiting

  function Pow2(n: nat): nat { if n == 0 then 1 else 2 * Pow2(n - 1) }

  function Min(a: int, b: int): int { if a < b then a else b }

  function Max(a: int, b: int): int { if a < b then b else a }

  function BackoffCeiling(n: nat): int {
    if n < 3 then Min(BASE_DELAY * Pow2(n), MAX_DELAY) else MAX_DELAY
  }

  function BackoffDelay(n: nat, rnd: real): int
    requires 0.0 <= rnd < 1.0
  {
    (rnd * BackoffCeiling(n) as real).Floor
  }

  function RetryWait(n: nat, rnd: real, retryAfter: int): int
    requires 0.0 <= rnd < 1.0
  {
    Max(BackoffDelay(n, rnd), retryAfter)
  }

  lemma {:induction false} DoublesPastCap(n: nat)
    requires n >= 3
    ensures BASE_DELAY * Pow2(n) >= MAX_DELAY
  {
    if n > 3 {
      DoublesPastCap(n - 1);
    } else {
      assert Pow2(3) == 2 * (2 * (2 * Pow2(0)));
    }
  }

  /** The shortcut for n >= 3 is the doubling rule: the wait is a draw below min(base * 2^n, max), or
      what the upstream asked for when that is longer, and never longer than the longest wait. */
  lemma WaitIsBounded(n: nat, rnd: real, err: AttemptError)
    requires 0.0 <= rnd < 1.0 && Classify(err).retry
    ensures BackoffCeiling(n) == Min(BASE_DELAY * Pow2(n), MAX_DELAY)
    ensures 0 <= BackoffDelay(n, rnd) < Min(BASE_DELAY * Pow2(n), MAX_DELAY)
    ensures var w := RetryWait(n, rnd, Classify(err).retryAfter);
      Classify(err).retryAfter <= w <= MAX_DELAY && BackoffDelay(n, rnd) <= w
  {
    ClassTable(err);
    if n >= 3 {
      DoublesPastCap(n);
    }
    CeilingPositive(n);
    var c := BackoffCeiling(n) as real;
    assert 0.0 <= rnd * c < c by { ScaledBelow(rnd, c); }
  }

  lemma {:induction false} CeilingPositive(n: nat)
    ensures Pow2(n) > 0 && BackoffCeiling(n) > 0
  {
    if n > 0 {
      CeilingPositive(n - 1);
    }
  }

  lemma ScaledBelow(rnd: real, c: real)
    requires 0.0 <= rnd < 1.0 && c > 0.0
    ensures 0.0 <= rnd * c < c
  {
    assert (1.0 - rnd) * c > 0.0;
  }
}
