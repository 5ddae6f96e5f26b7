/** The pure steps of the entry point of the WordPress logins finder
    (wordpress_logins_finder/logins_finder.py): the run configuration, the
    target built from the probed scheme, and the dropping of empty outcomes
    before the results are written out. */
module LoginsFinder {
  import opened Wrappers
  import opened Constants
  import opened Requests

  /** The settings of one run. */
  datatype RunConfig = RunConfig(domain: string, verbose: bool, output: string)

  /** `RunConfig(domain)`, the two optional fields left at their defaults. */
  function DefaultRunConfig(domain: string): (c: RunConfig)
    ensures c.domain == domain && c.verbose == DefaultDebugging && c.output == ResultFileName
  {
    RunConfig(domain, DefaultDebugging, ResultFileName)
  }

  /** The parsed command line: `--domain`, `--verbose`, `--output`. */
  datatype ParsedArgs = ParsedArgs(domain: string, verbose: bool, output: string)

  /** `define_config_from_cmd`: copies the three arguments unchanged. */
  function DefineConfigFromCmd(args: ParsedArgs): (c: RunConfig)
    ensures c.domain == args.domain && c.verbose == args.verbose && c.output == args.output
  {
    RunConfig(args.domain, args.verbose, args.output)
  }

  /** The probe target `f'{schema}://{domain}'`. */
  function TargetFor(schema: string, domain: string): (t: string)
    ensures |t| == |schema| + 3 + |domain|
    ensures t[..|schema|] == schema && t[|schema|..|schema| + 3] == "://" && t[|schema| + 3..] == domain
  {
    schema + "://" + domain
  }

  /** Stripping the scheme off the target gives the domain back, for either
      scheme the probe can report. */
  lemma TargetStripsToDomain(schema: string, domain: string)
    requires schema == "http" || schema == "https"
    ensures StripScheme(TargetFor(schema, domain)) == domain
  {
    var t := TargetFor(schema, domain);
    if schema == "https" {
      assert t == "https://" + domain && t[8..] == domain;
    } else {
      assert t == "http://" + domain && t[7..] == domain;
      assert t[4] == ':';
    }
  }

  /** The search URL of a probed target asks for the admin e-mail at the bare domain. */
  lemma SearchUrlUsesDomain(schema: string, domain: string)
    requires schema == "http" || schema == "https"
    ensures CandidateUrls(TargetFor(schema, domain))[CandidateCount - 1]
         == TargetFor(schema, domain) + SearchPath + domain
  {
    LastCandidate(TargetFor(schema, domain));
    TargetStripsToDomain(schema, domain);
  }

  /** `list(filter(None, results))`: the present values, in their order. */
  function FilterNone(results: seq<Option<Record>>): (kept: seq<Record>)
    ensures |kept| <= |results|
    ensures forall x :: x in kept <==> Some(x) in results
    decreases |results|
  {
    if results == [] then []
    else
      (if results[0].Some? then [results[0].value] else []) + FilterNone(results[1..])
  }

  /** Filtering keeps relative order: it distributes over concatenation. */
  lemma {:induction false} FilterNoneAppend(a: seq<Option<Record>>, b: seq<Option<Record>>)
    ensures FilterNone(a + b) == FilterNone(a) + FilterNone(b)
    decreases |a|
  {
    if a != [] {
      assert (a + b)[0] == a[0] && (a + b)[1..] == a[1..] + b;
      FilterNoneAppend(a[1..], b);
    } else {
      assert a + b == b;
    }
  }

  /** Filtering a sequence with no present value gives nothing. */
  lemma {:induction false} FilterNoneAllNone(a: seq<Option<Record>>)
    requires forall k :: 0 <= k < |a| ==> a[k].None?
    ensures FilterNone(a) == []
    decreases |a|
  {
    if a != [] {
      FilterNoneAllNone(a[1..]);
    }
  }

  /** With exactly one present value, filtering yields that value alone. */
  lemma FilterNoneSingle(a: seq<Option<Record>>, j: nat)
    requires j < |a| && a[j].Some?
    requires forall k :: 0 <= k < |a| && k != j ==> a[k].None?
    ensures FilterNone(a) == [a[j].value]
  {
    assert a == a[..j] + ([a[j]] + a[j + 1..]);
    FilterNoneAppend(a[..j], [a[j]] + a[j + 1..]);
    FilterNoneAppend([a[j]], a[j + 1..]);
    FilterNoneAllNone(a[..j]);
    FilterNoneAllNone(a[j + 1..]);
    assert FilterNone([a[j]]) == [a[j].value] + FilterNone([]);
  }

  /** Every kept record comes from one of the URLs and carries a status outside
      the error set. */
  lemma KeptRecordsAreExposed(urls: seq<string>, scripts: seq<seq<Attempt>>, limit: nat)
    requires Covers(scripts, |urls|, limit)
    ensures forall rec: Record :: rec in FilterNone(Outcomes(urls, scripts, limit)) ==>
              rec.url in urls && !IsErrorStatus(rec.statusCode)
  {
    var outcomes := Outcomes(urls, scripts, limit);
    forall rec: Record | rec in FilterNone(outcomes)
      ensures rec.url in urls && !IsErrorStatus(rec.statusCode)
    {
      var k :| 0 <= k < |outcomes| && outcomes[k] == Some(rec);
      assert FetchResult(urls[k], scripts[k], limit).outcome == Some(rec);
    }
  }

  /** The pipeline of `main` without its I/O: configuration, scheme probe,
      candidate list, requests and filtering. `Err` is an exception escaping
      the probe, which ends the run without results. */
  method FindLogins(args: ParsedArgs, network: string -> ProbeAttempt, scripts: seq<seq<Attempt>>,
                    retryLimit: nat := LimitOfAttemptsToRetryDefault)
    returns (r: Result<seq<Record>, ProbeFailure>)
    requires Covers(scripts, CandidateCount, retryLimit)
    ensures r.Err? <==> network(ProbeUrl(args.domain)).ProbeOtherError?
    ensures r.Ok? ==> var target := TargetFor(ProbeTargetSchema(args.domain, network).value, args.domain);
      r.value == FilterNone(Outcomes(CandidateUrls(target), scripts, retryLimit))
    ensures r.Ok? ==> |r.value| <= CandidateCount
    ensures r.Ok? ==> forall rec :: rec in r.value ==> !IsErrorStatus(rec.statusCode)
  {
    var runConfig := DefineConfigFromCmd(args);
    var schema := ProbeTargetSchema(runConfig.domain, network);
    if schema.Err? {
      return Err(schema.error);
    }
    var target := TargetFor(schema.value, runConfig.domain);
    var possibleUrls := TargetsToCheck(target);
    CandidateUrlsShape(target);
    var results := CreateMakeRequests(possibleUrls, scripts, retryLimit);
    assert results == Outcomes(possibleUrls, scripts, retryLimit);
    KeptRecordsAreExposed(possibleUrls, scripts, retryLimit);
    return Ok(FilterNone(results));
  }

  /** A scan in which exactly one URL yields a record and every other URL
      yields nothing (an error status, a fatal error or an exhausted budget)
      gives exactly that record. */
  lemma SingleExposedEndpoint(urls: seq<string>, scripts: seq<seq<Attempt>>, limit: nat, j: nat)
    requires Covers(scripts, |urls|, limit) && j < |urls|
    requires FetchResult(urls[j], scripts[j], limit).outcome.Some?
    requires forall k :: 0 <= k < |urls| && k != j ==> FetchResult(urls[k], scripts[k], limit).outcome.None?
    ensures FilterNone(Outcomes(urls, scripts, limit)) == [FetchResult(urls[j], scripts[j], limit).outcome.value]
  {
    FilterNoneSingle(Outcomes(urls, scripts, limit), j);
  }

  /** The end-to-end scenario: only the bare users endpoint below the target
      (for `https://example.com`, `https://example.com/wp-json/wp/v2/users`)
      answers 200 on its first attempt, every other candidate yields nothing
      (a 404, say, or an `InvalidURL` for a numbered path that lacks the
      target); the results are that one record. */
  lemma UsersEndpointScenario(target: string, scripts: seq<seq<Attempt>>, limit: nat, body: Json)
    requires Covers(scripts, CandidateCount, limit) && 0 < limit
    requires scripts[2][0] == Responded(200, body)
    requires forall k :: 0 <= k < CandidateCount && k != 2 ==>
               FetchResult(CandidateUrls(target)[k], scripts[k], limit).outcome.None?
    ensures FilterNone(Outcomes(CandidateUrls(target), scripts, limit))
         == [Record(target + "/wp-json/wp/v2/users", 200, body)]
  {
    var urls := CandidateUrls(target);
    FixedCandidate(target, 2);
    assert FixedSuffixes[2] == "/wp-json/wp/v2/users";
    FirstAttemptSucceeds(urls[2], scripts[2], limit);
    SingleExposedEndpoint(urls, scripts, limit, 2);
  }

  /** When the HTTPS probe of the domain cannot connect, the scheme is `http`
      and every candidate that carries the target carries the `http://` prefix. */
  lemma ConnectorFailureUsesHttp(domain: string, network: string -> ProbeAttempt, k: nat)
    requires network(ProbeUrl(domain)) == ProbeConnectorError
    requires k < 5 || k == CandidateCount - 1
    ensures ProbeTargetSchema(domain, network) == Ok("http")
    ensures var urls := CandidateUrls(TargetFor(ProbeTargetSchema(domain, network).value, domain));
      k < |urls| && "http://" + domain <= urls[k]
  {
    assert TargetFor("http", domain) == "http://" + domain;
    CandidatesBelowTarget(TargetFor("http", domain), k);
  }
}
