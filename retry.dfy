/**
 * The attempt loop shared by both `retry_on_failure` decorators
 * (backend/utils.py and templates/miscellaneous/utils_.py): up to
 * `max_retries + 1` calls, a sleep between failures that grows by
 * `backoff_factor`, and the last failure re-raised.
 */
module Retry {

  /** What one call of the wrapped function does. */
  datatype Attempt<T, E> = Success(value: T) | Failure(error: E)

  /** How the attempt loop ends; `Exhausted` is falling out of an empty `range`. */
  datatype LoopEnd<T, E> = Returned(value: T) | Raised(error: E) | Exhausted

  function Pow(b: real, k: nat): real
  {
    if k == 0 then 1.0 else b * Pow(b, k - 1)
  }

  /** The delays slept between failed attempts: `initial_delay * backoff_factor^k`. */
  predicate BackoffDelays(sleeps: seq<real>, initialDelay: real, backoff: real, n: nat)
  {
    |sleeps| == n && forall k :: 0 <= k < n ==> sleeps[k] == initialDelay * Pow(backoff, k)
  }

  /**
   * The loop: `call(k)` is the outcome of the k-th call. The first success
   * is returned at once; a failure before the last attempt sleeps and
   * multiplies the delay; the last failure is raised without sleeping.
   */
  method AttemptLoop<T, E>(maxRetries: int, initialDelay: real, backoff: real, call: nat -> Attempt<T, E>)
    returns (r: LoopEnd<T, E>, attempts: nat, sleeps: seq<real>)
    ensures attempts <= if maxRetries < 0 then 0 else maxRetries + 1
    ensures forall k :: 0 <= k < attempts - 1 ==> call(k).Failure?
    ensures r.Returned? ==> attempts >= 1 && call(attempts - 1) == Success(r.value)
    ensures r.Raised? ==> attempts >= 1 && attempts == maxRetries + 1 && call(attempts - 1) == Failure(r.error)
    ensures r.Returned? <==> exists k :: 0 <= k <= maxRetries && call(k).Success?
    ensures r.Exhausted? <==> maxRetries < 0
    ensures r.Exhausted? ==> attempts == 0
    ensures BackoffDelays(sleeps, initialDelay, backoff, if attempts == 0 then 0 else attempts - 1)
  {
    var delay := initialDelay;
    sleeps := [];
    attempts := 0;
    while attempts < maxRetries + 1
      invariant 0 <= attempts && (maxRetries >= 0 ==> attempts <= maxRetries)
      invariant maxRetries < 0 ==> attempts == 0
      invariant forall k :: 0 <= k < attempts ==> call(k).Failure?
      invariant BackoffDelays(sleeps, initialDelay, backoff, attempts)
      invariant delay == initialDelay * Pow(backoff, attempts)
      decreases maxRetries + 1 - attempts
    {
      var a := attempts;
      match call(a) {
        case Success(v) =>
          r, attempts := Returned(v), a + 1;
          return;
        case Failure(e) =>
          if a == maxRetries {
            r, attempts := Raised(e), a + 1;
            assert forall k :: 0 <= k <= maxRetries ==> call(k).Failure?;
            return;
          }
          sleeps := sleeps + [delay];
          delay := delay * backoff;
          attempts := a + 1;
          assert Pow(backoff, attempts) == backoff * Pow(backoff, a);
      }
    }
    r := Exhausted;
  }
}
