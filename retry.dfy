/** The retry classifier every paced call of the backend hands to the
    pacer: whether a response/error pair deserves another attempt. */
module Retry {
  import opened Types

  /** HTTP statuses the service is known to return transiently: expired
      page tokens (400), expired session tokens (401), request timeout,
      rate limiting, and the usual gateway and server hiccups. */
  const RetryErrorCodes: seq<int> := [400, 401, 408, 429, 500, 502, 503, 504]

  /** The framework's HTTP check: a response is present and its status is
      one of `codes`. */
  predicate RetryableStatus(resp: Option<Response>, codes: seq<int>)
  {
    resp.Some? && resp.value.statusCode in codes
  }

  /** The classifier's answer: retry or not, and the error it was given. */
  datatype Verdict = Verdict(retry: bool, err: Option<Error>)

  /** Classifies one response/error pair. `transportRetryable` is the
      framework's own verdict on the error (network resets, timeouts, ...),
      supplied by the caller; the backend adds its fixed status list and
      hands the error back untouched. */
  function ShouldRetry(resp: Option<Response>, err: Option<Error>,
                       transportRetryable: Option<Error> -> bool): (v: Verdict)
    ensures v.err == err
    ensures v.retry <==>
      (transportRetryable(err) ||
       (resp.Some? && resp.value.statusCode in {400, 401, 408, 429, 500, 502, 503, 504}))
  {
    Verdict(transportRetryable(err) || RetryableStatus(resp, RetryErrorCodes), err)
  }

  /** A fact about the constant list, kept as a sanity example: every
      listed status is a client or server error, so no successful or
      redirecting response is ever retried on account of its status. */
  lemma RetryCodesAreErrors()
    ensures forall c :: c in RetryErrorCodes ==> 400 <= c <= 599
  {
  }

  /** A 2xx response whose error the framework does not consider transient
      is final. */
  lemma SuccessIsFinal(resp: Option<Response>, err: Option<Error>,
                       transportRetryable: Option<Error> -> bool)
    requires resp.Some? && 200 <= resp.value.statusCode <= 299
    requires !transportRetryable(err)
    ensures !ShouldRetry(resp, err, transportRetryable).retry
  {
  }

  /** Without a response only the framework's transport verdict counts. */
  lemma NoResponseDefersToTransport(err: Option<Error>, transportRetryable: Option<Error> -> bool)
    ensures ShouldRetry(None, err, transportRetryable).retry == transportRetryable(err)
  {
  }

  /** Example of ShouldRetry: a rate-limited response (429) is retried
      whatever the transport says. */
  lemma RateLimitIsRetried(err: Option<Error>, transportRetryable: Option<Error> -> bool)
    ensures ShouldRetry(Some(Response(429)), err, transportRetryable).retry
  {
  }
}
