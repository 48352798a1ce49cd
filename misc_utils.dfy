/**
 * The retry decorator and the response check of
 * templates/miscellaneous/utils_.py. The decorator runs the attempt loop of
 * module Retry, which it shares with backend/utils.py.
 */
module MiscUtils {
  import opened JsonValue
  import opened Retry
  import BackendUtils

  /**
   * What the decorated call does. Unlike the backend's wrapper this one has
   * no statement after its loop, so an empty `range` returns None.
   */
  datatype CallResult<T, E> = Returns(value: T) | Raises(error: E) | ReturnsNone

  /**
   * `retry_on_failure`: the first success is returned; each failure before
   * the last attempt sleeps `initial_delay * backoff_factor^k`; the failure
   * of attempt `max_retries + 1` is raised; a negative `max_retries` makes
   * no call and returns None.
   */
  method RetryOnFailure<T, E>(maxRetries: int, initialDelay: real, backoff: real, call: nat -> Attempt<T, E>)
    returns (r: CallResult<T, E>, attempts: nat, sleeps: seq<real>)
    ensures attempts <= if maxRetries < 0 then 0 else maxRetries + 1
    ensures forall k :: 0 <= k < attempts - 1 ==> call(k).Failure?
    ensures r.Returns? <==> exists k :: 0 <= k <= maxRetries && call(k).Success?
    ensures r.Returns? ==> attempts >= 1 && call(attempts - 1) == Success(r.value)
    ensures r.Raises? ==> attempts >= 1 && attempts == maxRetries + 1 && call(attempts - 1) == Failure(r.error)
    ensures r.ReturnsNone? <==> maxRetries < 0
    ensures BackoffDelays(sleeps, initialDelay, backoff, if attempts == 0 then 0 else attempts - 1)
  {
    var end;
    end, attempts, sleeps := AttemptLoop(maxRetries, initialDelay, backoff, call);
    match end
    case Returned(v) => r := Returns(v);
    case Raised(e) => r := Raises(e);
    case Exhausted => r := ReturnsNone;
  }

  /** The one message a non-dictionary response gets. */
  const NotADictionary: string := "Response is not a dictionary"

  /**
   * `validate_response_against_schema`: a non-dictionary fails with the one
   * message; a dictionary is valid exactly when no required key is missing,
   * and on a dictionary the result is the backend's, missing keys in
   * required order.
   */
  function ValidateResponse(response: Json, required: seq<string>): (r: (bool, seq<string>))
    ensures !response.JDict? ==> r == (false, [NotADictionary])
    ensures response.JDict? ==> r.1 == BackendUtils.MissingKeys(response.fields, required)
    ensures response.JDict? ==> (r.0 <==> forall k :: k in required ==> k in response.fields)
    ensures response.JDict? ==> r == BackendUtils.ValidateResponseAgainstSchema(response, required)
  {
    if !response.JDict? then (false, [NotADictionary])
    else
      var missing := BackendUtils.MissingKeys(response.fields, required);
      assert |missing| > 0 ==> missing[0] in missing;
      (|missing| == 0, missing)
  }
}
