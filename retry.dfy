/**
 * The retry-exemption rule every RDS waiter of cavalier is configured with:
 * before the SDK's default `Retryable` rule of a waiter is consulted, an
 * `ExpiredToken` API error stops the wait and is surfaced.
 */
module Retry {
  import opened Wrappers
  import opened Faults

  const ExpiredTokenCode := "ExpiredToken"

  /** The poll error is an API error whose code is `ExpiredToken`. */
  predicate IsExpiredToken(err: Option<Fault>) {
    err.Some? && ApiCode(err.value) == Some(ExpiredTokenCode)
  }

  /**
   * The error half of `waiterRetryable`'s answer: the sentinel
   * `errSkipRetrable` ("no decision made here"), or an error to surface.
   */
  datatype RetryError = ErrSkipRetryable | Surfaced(cause: Fault)

  /**
   * `waiterRetryable`: never answers "retry"; makes a decision (surfacing
   * the poll error itself) exactly for an `ExpiredToken` API error, and
   * otherwise answers `errSkipRetrable`.
   */
  function WaiterRetryable(err: Option<Fault>): (r: (bool, RetryError))
    ensures !r.0
    ensures r.1 != ErrSkipRetryable <==> IsExpiredToken(err)
    ensures r.1.Surfaced? ==> err == Some(r.1.cause)
  {
    if err.None? then (false, ErrSkipRetryable)
    else
      match ApiCode(err.value)
      case None => (false, ErrSkipRetryable)
      case Some(code) =>
        if code == ExpiredTokenCode then (false, Surfaced(err.value))
        else (false, ErrSkipRetryable)
  }

  /**
   * `setCustomRDSRetryable`: the rule installed in place of the waiter's
   * default rule `orig`. For an `ExpiredToken` error it answers "stop, with
   * this error" without consulting `orig`; for a nil error, a non-API error
   * or any other code it answers exactly what `orig` answers. So whenever
   * the installed rule says "retry", `orig` said so.
   */
  function SetCustomRDSRetryable<In(!new), Out(!new)>(orig: (In, Out, Option<Fault>) -> (bool, Option<Fault>))
    : (fp: (In, Out, Option<Fault>) -> (bool, Option<Fault>))
    ensures forall input, output, err :: IsExpiredToken(err) ==> fp(input, output, err) == (false, err)
    ensures forall input, output, err :: !IsExpiredToken(err) ==> fp(input, output, err) == orig(input, output, err)
    ensures forall input, output, err :: fp(input, output, err).0 ==> fp(input, output, err) == orig(input, output, err)
  {
    var fp := (input: In, output: Out, err: Option<Fault>) =>
      var (ok, rerr) := WaiterRetryable(err);
      if rerr != ErrSkipRetryable then (ok, err) else orig(input, output, err);
    assert forall err :: IsExpiredToken(err) ==> WaiterRetryable(err) == (false, Surfaced(err.value));
    fp
  }
}
