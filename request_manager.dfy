/** The request manager of the WordPress logins finder
    (wordpress_logins_finder/utils/request_manager.py): the per-URL retry loop,
    the additive failure counter, the ordered fan-out over all candidate URLs and
    the http/https probe. Every network exchange is an input: one scripted
    `Attempt` per pass through the retry loop. */
module Requests {
  import opened Wrappers
  import opened Constants

  /** A decoded JSON document, the value of `await response.json()`. */
  datatype Json =
    | JNull
    | JBool(b: bool)
    | JNumber(n: int)
    | JString(s: string)
    | JArray(items: seq<Json>)
    | JObject(fields: seq<(string, Json)>)

  /** The exceptions the retry loop catches and retries. */
  datatype RetryableError =
    | ClientConnectorError
    | ClientResponseError
    | ServerTimeoutError
    | TimeoutError
    | ServerDisconnectedError
    | ClientOSError

  /** The exceptions that end the retry loop at once. */
  datatype FatalError = UnicodeDecodeError | InvalidURL

  /** What one pass through the retry loop observes: a response with its status
      and decoded body, or an exception of one of the two classes. */
  datatype Attempt =
    | Responded(status: int, body: Json)
    | Retryable(error: RetryableError)
    | Fatal(fatal: FatalError)

  /** The dictionary `{url, status_code, body}` returned for an exposed endpoint. */
  datatype Record = Record(url: string, statusCode: int, body: Json)

  /** The whole effect of fetching one URL: what it returns, how many attempts it
      made, and by how much it raised the failure counter. */
  datatype FetchRun = FetchRun(outcome: Option<Record>, attempts: nat, failures: nat)

  /** The retry loop from the point where `left` attempts remain out of `limit`;
      the next attempt is `script[limit - left]`. */
  function RunFetch(url: string, script: seq<Attempt>, limit: nat, left: nat): (r: FetchRun)
    requires left <= limit <= |script|
    ensures r.failures <= r.attempts <= left
    ensures r.outcome.Some? ==> r.outcome.value.url == url && !IsErrorStatus(r.outcome.value.statusCode)
    decreases left
  {
    if left == 0 then FetchRun(None, 0, 0)
    else
      match script[limit - left]
      case Responded(status, body) =>
        if !IsErrorStatus(status) then FetchRun(Some(Record(url, status, body)), 1, 0)
        else FetchRun(None, 1, 0)
      case Retryable(_) =>
        var rest := RunFetch(url, script, limit, left - RequestsRetriesNumToRemove);
        FetchRun(rest.outcome, rest.attempts + 1, rest.failures + RequestsRetriesNumToRemove)
      case Fatal(_) => FetchRun(None, 1, 0)
  }

  /** The effect of `_fetch` on one URL with a budget of `limit` attempts. */
  function FetchResult(url: string, script: seq<Attempt>, limit: nat): (r: FetchRun)
    requires limit <= |script|
    ensures r.failures <= r.attempts <= limit
    ensures r.outcome.Some? ==> r.outcome.value.url == url && !IsErrorStatus(r.outcome.value.statusCode)
  {
    RunFetch(url, script, limit, limit)
  }

  /** `k` is the index of the first attempt that is not a retryable error, or
      `limit` when all `limit` attempts are retryable errors. */
  predicate StopsAt(script: seq<Attempt>, limit: nat, k: nat)
  {
    k <= limit <= |script|
    && (forall j :: 0 <= j < k ==> script[j].Retryable?)
    && (k == limit || !script[k].Retryable?)
  }

  lemma {:induction false} RunFetchStopsAt(url: string, script: seq<Attempt>, limit: nat, left: nat, k: nat)
    requires StopsAt(script, limit, k) && left <= limit && limit - left <= k
    ensures var r := RunFetch(url, script, limit, left);
      && r.failures == k - (limit - left)
      && r.attempts == (if k < limit then k + 1 else limit) - (limit - left)
      && (r.outcome.Some? <==> k < limit && script[k].Responded? && !IsErrorStatus(script[k].status))
      && (r.outcome.Some? ==> r.outcome.value == Record(url, script[k].status, script[k].body))
    decreases left
  {
    if left > 0 && limit - left < k {
      assert script[limit - left].Retryable?;
      RunFetchStopsAt(url, script, limit, left - 1, k);
    }
  }

  /** The retry loop, characterised: every retryable error before the first
      other attempt bumps the counter; that attempt ends the loop, and it yields
      a record exactly when it is a response whose status is not an error
      status. When every attempt is a retryable error, the budget runs out. */
  lemma FetchStopsAtFirstNonRetryable(url: string, script: seq<Attempt>, limit: nat, k: nat)
    requires StopsAt(script, limit, k)
    ensures var r := FetchResult(url, script, limit);
      && r.failures == k
      && r.attempts == (if k < limit then k + 1 else limit)
      && (r.outcome.Some? <==> k < limit && script[k].Responded? && !IsErrorStatus(script[k].status))
      && (r.outcome.Some? ==> r.outcome.value == Record(url, script[k].status, script[k].body))
  {
    RunFetchStopsAt(url, script, limit, limit, k);
  }

  /** Every script has such a stopping index, so the characterisation covers all runs. */
  lemma {:induction false} StopIndexExists(script: seq<Attempt>, limit: nat, from: nat)
    requires from <= limit <= |script|
    requires forall j :: 0 <= j < from ==> script[j].Retryable?
    ensures exists k :: StopsAt(script, limit, k)
    decreases limit - from
  {
    if from == limit || !script[from].Retryable? {
      assert StopsAt(script, limit, from);
    } else {
      StopIndexExists(script, limit, from + 1);
    }
  }

  /** A URL whose every attempt is a retryable error yields nothing and raises
      the failure counter by exactly the retry budget. */
  lemma AllAttemptsRetryable(url: string, script: seq<Attempt>, limit: nat)
    requires limit <= |script|
    requires forall j :: 0 <= j < limit ==> script[j].Retryable?
    ensures FetchResult(url, script, limit).outcome == None
    ensures FetchResult(url, script, limit).failures == limit
    ensures FetchResult(url, script, limit).attempts == limit
  {
    FetchStopsAtFirstNonRetryable(url, script, limit, limit);
  }

  /** A first response with a non-error status gives its record on the first
      attempt, consuming no retries. */
  lemma FirstAttemptSucceeds(url: string, script: seq<Attempt>, limit: nat)
    requires 0 < limit <= |script|
    requires script[0].Responded? && !IsErrorStatus(script[0].status)
    ensures FetchResult(url, script, limit)
         == FetchRun(Some(Record(url, script[0].status, script[0].body)), 1, 0)
  {
    FetchStopsAtFirstNonRetryable(url, script, limit, 0);
  }

  /** A response with an error status after `k` retryable errors ends the loop
      with nothing; that response does not touch the counter. */
  lemma ErrorStatusEndsLoop(url: string, script: seq<Attempt>, limit: nat, k: nat)
    requires k < limit <= |script|
    requires forall j :: 0 <= j < k ==> script[j].Retryable?
    requires script[k].Responded? && IsErrorStatus(script[k].status)
    ensures FetchResult(url, script, limit) == FetchRun(None, k + 1, k)
  {
    FetchStopsAtFirstNonRetryable(url, script, limit, k);
  }

  /** A `UnicodeDecodeError` or `InvalidURL` after `k` retryable errors ends the
      loop with nothing, consuming no further budget. */
  lemma FatalErrorEndsLoop(url: string, script: seq<Attempt>, limit: nat, k: nat)
    requires k < limit <= |script|
    requires forall j :: 0 <= j < k ==> script[j].Retryable?
    requires script[k].Fatal?
    ensures FetchResult(url, script, limit) == FetchRun(None, k + 1, k)
  {
    FetchStopsAtFirstNonRetryable(url, script, limit, k);
  }

  /** The attempt number written to the log when an attempt fails with
      `left` attempts remaining. */
  function AttemptNumber(limit: nat, left: nat): (n: nat)
    requires 0 < left <= limit
    ensures 1 <= n <= limit
  {
    limit - left + RequestsRetriesNumToRemove
  }

  /** Every script for `n` URLs offers at least `limit` attempts. */
  predicate Covers(scripts: seq<seq<Attempt>>, n: nat, limit: nat)
  {
    |scripts| == n && forall k :: 0 <= k < n ==> limit <= |scripts[k]|
  }

  /** One outcome per URL, in the order of the URLs. */
  function Outcomes(urls: seq<string>, scripts: seq<seq<Attempt>>, limit: nat): (r: seq<Option<Record>>)
    requires Covers(scripts, |urls|, limit)
    ensures |r| == |urls|
    ensures forall k :: 0 <= k < |urls| ==> r[k] == FetchResult(urls[k], scripts[k], limit).outcome
    decreases |urls|
  {
    if urls == [] then []
    else
      var n := |urls| - 1;
      Outcomes(urls[..n], scripts[..n], limit) + [FetchResult(urls[n], scripts[n], limit).outcome]
  }

  /** How much fetching all URLs raises the failure counter. */
  function TotalFailures(urls: seq<string>, scripts: seq<seq<Attempt>>, limit: nat): (t: nat)
    requires Covers(scripts, |urls|, limit)
    ensures t <= |urls| * limit
    decreases |urls|
  {
    if urls == [] then 0
    else
      var n := |urls| - 1;
      assert |urls| * limit == n * limit + limit;
      TotalFailures(urls[..n], scripts[..n], limit) + FetchResult(urls[n], scripts[n], limit).failures
  }

  /** The `RequestManager`: the URLs to fetch, the retry budget and the failure
      counter that the fetches raise. */
  class RequestManager {
    const urls: seq<string>
    const retryLimit: nat
    const timeout: nat
    var failedRequestsNum: int

    constructor (urls: seq<string>, retryLimit: nat := LimitOfAttemptsToRetryDefault,
                 timeout: nat := TimeoutDefault)
      ensures this.urls == urls && this.retryLimit == retryLimit && this.timeout == timeout
      ensures failedRequestsNum == 0
    {
      this.urls := urls;
      this.retryLimit := retryLimit;
      this.timeout := timeout;
      failedRequestsNum := 0;
    }

    /** The `failed_requests_num` setter: it adds its argument to the counter. */
    method AddFailedRequests(num: int)
      modifies this`failedRequestsNum
      ensures failedRequestsNum == old(failedRequestsNum) + num
    {
      failedRequestsNum := failedRequestsNum + num;
    }

    /** `_fetch`: the retry loop for one URL, fed by `script`. */
    method Fetch(url: string, script: seq<Attempt>) returns (outcome: Option<Record>)
      requires retryLimit <= |script|
      modifies this`failedRequestsNum
      ensures outcome == FetchResult(url, script, retryLimit).outcome
      ensures failedRequestsNum == old(failedRequestsNum) + FetchResult(url, script, retryLimit).failures
      ensures old(failedRequestsNum) <= failedRequestsNum <= old(failedRequestsNum) + retryLimit
    {
      var left: nat := retryLimit;
      while left > 0
        invariant left <= retryLimit
        invariant var r := RunFetch(url, script, retryLimit, left);
          FetchResult(url, script, retryLimit)
          == FetchRun(r.outcome, r.attempts + (retryLimit - left), r.failures + (retryLimit - left))
        invariant failedRequestsNum == old(failedRequestsNum) + (retryLimit - left)
        decreases left
      {
        match script[retryLimit - left]
        case Responded(status, body) =>
          if !IsErrorStatus(status) {
            return Some(Record(url, status, body));
          }
          break;
        case Retryable(_) =>
          // The attempt number the source logs with the error.
          var attemptNumber := AttemptNumber(retryLimit, left);
          left := left - RequestsRetriesNumToRemove;
          AddFailedRequests(RequestsRetriesNumToRemove);
        case Fatal(_) =>
          break;
      }
      return None;
    }

    /** `make_requests`: one fetch per URL; the results keep the order of the URLs. */
    method MakeRequests(scripts: seq<seq<Attempt>>) returns (results: seq<Option<Record>>)
      requires Covers(scripts, |urls|, retryLimit)
      modifies this`failedRequestsNum
      ensures results == Outcomes(urls, scripts, retryLimit)
      ensures failedRequestsNum == old(failedRequestsNum) + TotalFailures(urls, scripts, retryLimit)
      ensures old(failedRequestsNum) <= failedRequestsNum <= old(failedRequestsNum) + |urls| * retryLimit
    {
      results := [];
      var i := 0;
      while i < |urls|
        invariant 0 <= i <= |urls|
        invariant results == Outcomes(urls[..i], scripts[..i], retryLimit)
        invariant failedRequestsNum == old(failedRequestsNum) + TotalFailures(urls[..i], scripts[..i], retryLimit)
      {
        var outcome := Fetch(urls[i], scripts[i]);
        assert urls[..i + 1][..i] == urls[..i] && scripts[..i + 1][..i] == scripts[..i];
        results := results + [outcome];
        i := i + 1;
      }
      assert urls[..i] == urls && scripts[..i] == scripts;
    }
  }

  /** `create_make_requests`: a fresh manager fetches every URL. */
  method CreateMakeRequests(urls: seq<string>, scripts: seq<seq<Attempt>>,
                            retryLimit: nat := LimitOfAttemptsToRetryDefault,
                            timeout: nat := TimeoutDefault)
    returns (results: seq<Option<Record>>)
    requires Covers(scripts, |urls|, retryLimit)
    ensures |results| == |urls|
    ensures forall k :: 0 <= k < |urls| ==> results[k] == FetchResult(urls[k], scripts[k], retryLimit).outcome
  {
    var manager := new RequestManager(urls, retryLimit, timeout);
    results := manager.MakeRequests(scripts);
  }

  // ---------------------------------------------------------------------------
  // probe_target_schema
  // ---------------------------------------------------------------------------

  /** What the single HTTPS probe of the bare domain observes. */
  datatype ProbeAttempt =
    | ProbeResponse(headers: seq<(string, string)>)
    | ProbeConnectorError
    | ProbeOtherError

  /** An exception other than a connector error escapes the probe. */
  datatype ProbeFailure = Unhandled

  /** The URL the probe requests: the domain over HTTPS. */
  function ProbeUrl(domain: string): (u: string)
    ensures StripScheme(u) == domain
  {
    assert ("https://" + domain)[8..] == domain;
    "https://" + domain
  }

  /** `probe_target_schema`: one GET of `https://target`, whose result `network`
      supplies; `https` when the response carries headers, `http` when it
      carries none or the connection fails. */
  function ProbeTargetSchema(target: string, network: string -> ProbeAttempt): (r: Result<string, ProbeFailure>)
    ensures var probe := network(ProbeUrl(target));
      && (r.Err? <==> probe.ProbeOtherError?)
      && (r == Ok("https") <==> probe.ProbeResponse? && |probe.headers| > 0)
      && (r == Ok("http") <==> probe.ProbeConnectorError? || (probe.ProbeResponse? && probe.headers == []))
  {
    match network(ProbeUrl(target))
    case ProbeResponse(headers) => if |headers| > 0 then Ok("https") else Ok("http")
    case ProbeConnectorError => Ok("http")
    case ProbeOtherError => Err(Unhandled)
  }
}
