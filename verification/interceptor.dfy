/**
  The authenticating retry interceptor that `NetmeraApi` installs on its
  OkHttp client.

  The interceptor adds the API-key header to the outgoing request once, sends
  that request, and, only when the response code is above 499, sends the very
  same request again under a Failsafe retry policy. The network is replaced by
  a script: the finite sequence of outcomes that successive attempts produce.
 */
module Interceptor {

  /** A header as `Request.Builder.addHeader` appends it. */
  datatype Header = Header(name: string, value: string)

  /** The parts of an outgoing HTTP request the interceptor touches. */
  datatype Request = Request(url: string, headers: seq<Header>)

  /** What one attempt (`chain.proceed`) produces. */
  datatype Outcome =
    | Response(code: int)    // a response with this HTTP status code
    | SocketException        // `java.net.SocketException` or a subclass (`ConnectException`, ...)
    | OtherException         // any other exception, `SocketTimeoutException` and `UnknownHostException` included

  /** The interceptor's own trigger for retrying: a response code above 499. */
  predicate IsServerError(o: Outcome) {
    o.Response? && o.code > 499
  }

  /**
    The retry policy's failure predicate: `handle(SocketException.class)`
    together with `handleResultIf(result -> result.code() > 499)`.
   */
  predicate RetryHandles(o: Outcome) {
    o.SocketException? || IsServerError(o)
  }

  /** True iff `req` carries a header with this name and value. */
  predicate HasHeader(req: Request, name: string, value: string) {
    Header(name, value) in req.headers
  }

  /** The request with the API-key header appended, built once per interception. */
  function WithApiKey(req: Request, headerKey: string, apiKey: string): (r: Request)
    ensures HasHeader(r, headerKey, apiKey)
    ensures r.url == req.url
    ensures |r.headers| == |req.headers| + 1
    ensures r.headers[..|req.headers|] == req.headers
    ensures r.headers[|req.headers|] == Header(headerKey, apiKey)
    ensures multiset(r.headers)[Header(headerKey, apiKey)]
         == multiset(req.headers)[Header(headerKey, apiKey)] + 1
    ensures forall h :: h != Header(headerKey, apiKey) ==>
              multiset(r.headers)[h] == multiset(req.headers)[h]
  {
    req.(headers := req.headers + [Header(headerKey, apiKey)])
  }

  /** The result of running attempts: the outcome handed back and how many attempts ran. */
  datatype Execution = Execution(outcome: Outcome, attempts: nat)

  /**
    Declarative description of what a policy with `maxRetries` retries does on
    `script`: it runs attempts in order, retries every handled outcome while
    retries remain, and hands back the outcome of the last attempt it ran.
   */
  predicate PolicyResult(script: seq<Outcome>, maxRetries: nat, e: Execution) {
    && 1 <= e.attempts <= maxRetries + 1
    && e.attempts <= |script|
    && e.outcome == script[e.attempts - 1]
    && (forall i :: 0 <= i < e.attempts - 1 ==> RetryHandles(script[i]))
    && (RetryHandles(e.outcome) ==> e.attempts == maxRetries + 1)
  }

  /**
    `Failsafe.with(retryPolicy).get(...)`: run one attempt; while its outcome
    is handled and retries remain, run another. The script must hold an outcome
    for every attempt the policy may make.
   */
  function FailsafeGet(script: seq<Outcome>, retriesLeft: nat): (e: Execution)
    requires |script| > retriesLeft
    ensures PolicyResult(script, retriesLeft, e)
    decreases retriesLeft
  {
    if RetryHandles(script[0]) && retriesLeft > 0 then
      var rest := FailsafeGet(script[1..], retriesLeft - 1);
      assert forall i :: 1 <= i < rest.attempts + 1 ==> script[i] == script[1..][i - 1];
      Execution(rest.outcome, rest.attempts + 1)
    else
      Execution(script[0], 1)
  }

  /** What the interceptor returns (or raises) and every request it sent. */
  datatype Exchange = Exchange(outcome: Outcome, sent: seq<Request>)

  /**
    One pass through the interceptor. The first outcome of `script` answers the
    attempt made outside the policy; the rest answer the policy's attempts.
   */
  function Intercept(req: Request, headerKey: string, apiKey: string,
                     maxRetryCount: nat, script: seq<Outcome>): (x: Exchange)
    requires |script| >= maxRetryCount + 2
    ensures 1 <= |x.sent| <= maxRetryCount + 2
    ensures forall i :: 0 <= i < |x.sent| ==>
              x.sent[i] == WithApiKey(req, headerKey, apiKey)
    ensures x.outcome == script[|x.sent| - 1]
    ensures |x.sent| == 1 <==> !IsServerError(script[0])
    ensures IsServerError(script[0]) ==>
              PolicyResult(script[1..], maxRetryCount, Execution(x.outcome, |x.sent| - 1))
  {
    var request := WithApiKey(req, headerKey, apiKey);
    var first := script[0];
    if IsServerError(first) then
      var retried := FailsafeGet(script[1..], maxRetryCount);
      Exchange(retried.outcome, seq(retried.attempts + 1, _ => request))
    else
      Exchange(first, [request])
  }

  /** `PolicyResult` pins down exactly one execution. */
  lemma PolicyResultUnique(script: seq<Outcome>, maxRetries: nat, e1: Execution, e2: Execution)
    requires PolicyResult(script, maxRetries, e1)
    requires PolicyResult(script, maxRetries, e2)
    ensures e1 == e2
  {
  }

  /** An exception from the first attempt propagates at once: it is never retried. */
  lemma FirstAttemptExceptionNotRetried(req: Request, headerKey: string, apiKey: string,
                                        maxRetryCount: nat, script: seq<Outcome>)
    requires |script| >= maxRetryCount + 2
    requires script[0].SocketException? || script[0].OtherException?
    ensures Intercept(req, headerKey, apiKey, maxRetryCount, script) ==
              Exchange(script[0], [WithApiKey(req, headerKey, apiKey)])
  {
  }

  /**
    After a first response above 499, the interceptor returns the first later
    outcome the policy does not handle, provided it comes within the budget.
   */
  lemma ReturnsFirstUnhandledRetry(req: Request, headerKey: string, apiKey: string,
                                   maxRetryCount: nat, script: seq<Outcome>, k: nat)
    requires |script| >= maxRetryCount + 2
    requires IsServerError(script[0])
    requires 1 <= k <= maxRetryCount + 1
    requires forall i :: 1 <= i < k ==> RetryHandles(script[i])
    requires !RetryHandles(script[k])
    ensures Intercept(req, headerKey, apiKey, maxRetryCount, script).outcome == script[k]
    ensures |Intercept(req, headerKey, apiKey, maxRetryCount, script).sent| == k + 1
  {
  }

  /**
    When every attempt fails in a handled way, the interceptor makes the most
    attempts it can, `maxRetryCount + 2`, and hands back the last outcome.
   */
  lemma ExhaustsRetryBudget(req: Request, headerKey: string, apiKey: string,
                            maxRetryCount: nat, script: seq<Outcome>)
    requires |script| >= maxRetryCount + 2
    requires IsServerError(script[0])
    requires forall i :: 1 <= i <= maxRetryCount + 1 ==> RetryHandles(script[i])
    ensures |Intercept(req, headerKey, apiKey, maxRetryCount, script).sent| == maxRetryCount + 2
    ensures Intercept(req, headerKey, apiKey, maxRetryCount, script).outcome
              == script[maxRetryCount + 1]
  {
  }

  /**
    A retry count of 0 does not stop the re-issue: after a first response
    above 499 the policy still runs its one initial attempt, so the same
    request goes out twice and the second outcome is handed back.
   */
  lemma ZeroRetriesStillResends(req: Request, headerKey: string, apiKey: string,
                                script: seq<Outcome>)
    requires |script| >= 2
    requires IsServerError(script[0])
    ensures |Intercept(req, headerKey, apiKey, 0, script).sent| == 2
    ensures Intercept(req, headerKey, apiKey, 0, script).outcome == script[1]
  {
  }

  /**
    A larger retry budget never makes fewer attempts, and when the smaller
    budget already stopped on an unhandled outcome, the larger one stops at
    the same place.
   */
  lemma LargerBudgetExtends(script: seq<Outcome>, n: nat, m: nat)
    requires n <= m < |script|
    ensures FailsafeGet(script, n).attempts <= FailsafeGet(script, m).attempts
    ensures !RetryHandles(FailsafeGet(script, n).outcome) ==>
              FailsafeGet(script, m) == FailsafeGet(script, n)
  {
  }
}
