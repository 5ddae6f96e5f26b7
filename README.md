# WordPress logins finder — a Dafny model

The WordPress logins finder probes a domain for WordPress REST endpoints that
leak user accounts. It first asks the bare domain over HTTPS to decide between
`https` and `http`. It then builds a fixed list of 1005 candidate URLs and
fetches each one with a bounded retry loop. Finally it keeps only the responses
whose status is not one of the "not exposed" codes {400, 403, 404, 500}.

This project models the sequential logic of that pipeline. Every network
exchange is an input: a scripted `Attempt` per pass through the retry loop, and
a `ProbeAttempt` for the scheme probe.

- `constants.dfy` (module `Constants`): the `Config` constants and the error
  status set. It holds `strip_scheme`, with the anchored pattern `^https?://`
  modelled by a small backtracking matcher over literal and optional
  characters. It also holds `targets_to_check`: as a value (`CandidateUrls`)
  and as the method that appends the numbered paths one by one
  (`TargetsToCheck`).
- `request_manager.dfy` (module `Requests`): the `RequestManager` class. Its
  `failedRequestsNum` field only grows, through the additive setter. `Fetch`
  is the `_fetch` retry loop, proved against the specification function
  `RunFetch`. `MakeRequests` is the ordered fan-out over all URLs.
  `ProbeTargetSchema` is the http/https decision taken on the probe of
  `ProbeUrl(domain)`.
- `logins_finder.dfy` (module `LoginsFinder`): `RunConfig` and
  `define_config_from_cmd`, the target string `schema://domain`, and
  `filter(None, …)`. `FindLogins` is the pipeline of `main` without its I/O.
- `wrappers.dfy` (module `Wrappers`): `Option` and `Result`.

The model follows the code as written, including where it may surprise a
reader:

- The scheme probe answers `https` only when the HTTPS response carries
  headers. A response without headers gives `http`, whatever its status.
- The failure counter grows by one on every retryable error.
- A response whose status is in the error set ends the loop after that one
  attempt.
- The 999 numbered user paths are emitted without the target in front of them.

## Model

| member | source | states |
|---|---|---|
| `Constants.IsErrorStatus` | wordpress_logins_finder/utils/constants.py:38 | the status test used by `_fetch` holds exactly for 400, 403, 404 and 500 |
| `Constants.MatchPrefix` | wordpress_logins_finder/utils/constants.py:12-13 | a match of a pattern at the start of a string never extends past the string |
| `Constants.MatchLits` | wordpress_logins_finder/utils/constants.py:12-13 | a literal word followed by more pattern matches iff the subject starts with the word and the rest matches after it |
| `Constants.MatchOpt` | wordpress_logins_finder/utils/constants.py:12-13 | an optional character is taken when the rest then matches, and skipped otherwise, as a backtracking engine does |
| `Constants.SchemeMatchLength` | wordpress_logins_finder/utils/constants.py:12-13 | `^https?://` matches 8 characters on `https://…`, 7 on `http://…`, and nothing on any other string |
| `Constants.SubAnchored` | wordpress_logins_finder/utils/constants.py:13 | substituting the empty string for an anchored match leaves a suffix of the input that is never longer |
| `Constants.StripScheme` | wordpress_logins_finder/utils/constants.py:12-13 | defined by the three prefix cases `https://`, `http://`, neither; the result is a suffix of the input that is never longer, and equals the input exactly when neither scheme prefix is present (`StripSchemeIsRegexSubstitution` ties it to `^https?://`) |
| `Constants.StripSchemeIsRegexSubstitution` | wordpress_logins_finder/utils/constants.py:12-13 | `strip_scheme` equals the regex substitution of `^https?://`: it drops `https://` (8 characters) or `http://` (7) at position 0 only, otherwise returns the input; the result is a suffix of the input, never longer |
| `Constants.Decimal` | wordpress_logins_finder/utils/constants.py:24 | `str(i)` for the numbered IDs is a non-empty string of digits with no leading zero |
| `Constants.DecimalRoundTrip` | wordpress_logins_finder/utils/constants.py:24 | reading the decimal rendering of `i` back gives `i` |
| `Constants.DecimalInjective` | wordpress_logins_finder/utils/constants.py:24 | different IDs have different decimal renderings |
| `Constants.NumberedPaths` | wordpress_logins_finder/utils/constants.py:24 | the comprehension over `range(1, n + 1)` has `n` entries, entry `k` being `/wp-json/wp/v2/users/` followed by `k + 1` |
| `Constants.TargetsToCheck` | wordpress_logins_finder/utils/constants.py:16-26 | the list built in place with the five fixed URLs, then the numbered paths appended in order, then the search URL, equals the candidate list |
| `Constants.FixedCandidate` | wordpress_logins_finder/utils/constants.py:17-23 | the list has 1005 entries and entry `k < 5` is the target followed by the `k`-th fixed path, `usErs` variant last |
| `Constants.NumberedCandidate` | wordpress_logins_finder/utils/constants.py:24 | entries 5..1003 are `/wp-json/wp/v2/users/` followed by the IDs 1..999 in increasing order |
| `Constants.LastCandidate` | wordpress_logins_finder/utils/constants.py:25 | the last entry is the target, then `/wp-json/wp/v2/users?search=admin@`, then the target with its scheme stripped |
| `Constants.CandidateUrls` | wordpress_logins_finder/utils/constants.py:16-26 | the value `targets_to_check` returns: 1005 entries, the last being target + `/wp-json/wp/v2/users?search=admin@` + the target without its scheme (`CandidateUrlsShape` gives every position) |
| `Constants.CandidateUrlsShape` | wordpress_logins_finder/utils/constants.py:16-26 | the list is exactly 5 + 999 + 1 = 1005 entries, with every position's content as above |
| `Constants.CandidatesBelowTarget` | wordpress_logins_finder/utils/constants.py:17-25 | every entry other than the 999 numbered ones starts with the target |
| `Constants.NumberedLackTarget` | wordpress_logins_finder/utils/constants.py:24 | the numbered entries do not start with the target, for any non-empty target that does not start with `/` |
| `Constants.NumberedDistinct` | wordpress_logins_finder/utils/constants.py:24 | the 999 numbered entries are pairwise different |
| `Requests.RunFetch` | wordpress_logins_finder/utils/request_manager.py:63-89 | from `left` remaining attempts the loop makes at most `left` attempts, at most one failure per attempt, and a record it returns carries the URL and a status outside the error set |
| `Requests.FetchResult` | wordpress_logins_finder/utils/request_manager.py:55-89 | the effect of `_fetch` from a full budget of `limit`: at most `limit` attempts, at most one failure per attempt, and a record it returns carries the URL and a status outside the error set |
| `Requests.FetchStopsAtFirstNonRetryable` | wordpress_logins_finder/utils/request_manager.py:63-89 | with `k` the first attempt that is not a retryable error (or the limit): the counter grows by exactly `k`, `k + 1` attempts are made (or the limit), and a record `{url, status, body}` is returned exactly when attempt `k` is a response with a status outside the error set |
| `Requests.StopIndexExists` | wordpress_logins_finder/utils/request_manager.py:63-64 | every script has such a stopping index, so the characterisation covers every run |
| `Requests.AllAttemptsRetryable` | wordpress_logins_finder/utils/request_manager.py:63-64 | if every attempt raises a retryable error the result is `None`, the limit of attempts is used up, and the counter grows by exactly the limit |
| `Requests.FirstAttemptSucceeds` | wordpress_logins_finder/utils/request_manager.py:67-73 | a first response with a non-error status returns its record after one attempt, with no failure counted |
| `Requests.ErrorStatusEndsLoop` | wordpress_logins_finder/utils/request_manager.py:68 | a response with an error status ends the loop through the `else: break` with `None`, without counting a failure for it |
| `Requests.FatalErrorEndsLoop` | wordpress_logins_finder/utils/request_manager.py:83-84 | `UnicodeDecodeError` or `InvalidURL` ends the loop with `None`, consuming no further budget and counting no failure |
| `Requests.AttemptNumber` | wordpress_logins_finder/utils/request_manager.py:78-79 | the logged attempt number `LIMIT - left + 1` lies in 1..LIMIT |
| `Requests.RequestManager.constructor` | wordpress_logins_finder/utils/request_manager.py:30-39 | a new manager keeps the URLs, budget (default 5) and timeout (default 60) and starts its failure counter at 0 |
| `Requests.RequestManager.AddFailedRequests` | wordpress_logins_finder/utils/request_manager.py:153-155 | the setter adds its argument to the counter instead of assigning it |
| `Requests.RequestManager.Fetch` | wordpress_logins_finder/utils/request_manager.py:55-89 | the loop returns the outcome of `RunFetch` and raises the counter by exactly its number of failures, so the counter never decreases and grows by at most the limit |
| `Requests.Outcomes` | wordpress_logins_finder/utils/request_manager.py:96-101 | one outcome per URL, the `k`-th being the fetch of the `k`-th URL |
| `Requests.TotalFailures` | wordpress_logins_finder/utils/request_manager.py:81-82 | fetching `n` URLs raises the counter by at most `n` times the limit |
| `Requests.RequestManager.MakeRequests` | wordpress_logins_finder/utils/request_manager.py:91-101 | the results are the outcomes in URL order, and the counter grows by the sum of the per-URL failures, never decreasing and growing by at most the number of URLs times the limit |
| `Requests.CreateMakeRequests` | wordpress_logins_finder/utils/request_manager.py:41-53 | a fresh manager, whose retry limit defaults to 5 and timeout to 60, returns exactly one outcome per URL, in input order |
| `Requests.ProbeUrl` | wordpress_logins_finder/utils/request_manager.py:166 | stripping the scheme from the probed URL `https://domain` gives the domain back |
| `Requests.ProbeTargetSchema` | wordpress_logins_finder/utils/request_manager.py:158-169 | for the attempt the network gives for `https://domain`: `https` iff a response came back with non-empty headers; `http` iff the connection failed or the headers are empty; any other exception escapes |
| `LoginsFinder.DefaultRunConfig` | wordpress_logins_finder/logins_finder.py:20-26 | `verbose` defaults to `DEFAULT_DEBUGGING` and `output` to `results.json` |
| `LoginsFinder.DefineConfigFromCmd` | wordpress_logins_finder/logins_finder.py:29-39 | `domain`, `verbose` and `output` are copied from the arguments unchanged |
| `LoginsFinder.TargetFor` | wordpress_logins_finder/logins_finder.py:80 | the target `f'{schema}://{domain}'` is the schema, then `://`, then the domain, and nothing else |
| `LoginsFinder.TargetStripsToDomain` | wordpress_logins_finder/logins_finder.py:80 | for either probed scheme, stripping the scheme off `schema://domain` gives the domain back |
| `LoginsFinder.SearchUrlUsesDomain` | wordpress_logins_finder/logins_finder.py:80 | for a probed target the search URL asks for `admin@` followed by the bare domain |
| `LoginsFinder.FilterNone` | wordpress_logins_finder/logins_finder.py:87 | the kept list is no longer than the results, and contains exactly the values of the non-`None` outcomes |
| `LoginsFinder.FilterNoneAppend` | wordpress_logins_finder/logins_finder.py:87 | filtering distributes over concatenation, so relative order is preserved |
| `LoginsFinder.FilterNoneAllNone` | wordpress_logins_finder/logins_finder.py:87 | outcomes that are all `None` leave nothing |
| `LoginsFinder.FilterNoneSingle` | wordpress_logins_finder/logins_finder.py:87 | a single present outcome is kept alone |
| `LoginsFinder.KeptRecordsAreExposed` | wordpress_logins_finder/logins_finder.py:83-87 | every kept record comes from one of the candidate URLs and has a status outside the error set |
| `LoginsFinder.FindLogins` | wordpress_logins_finder/logins_finder.py:68-89 | the run fails exactly when the probe of `https://domain` raises an unhandled exception; otherwise it returns the filtered outcomes for the candidates of `schema://domain`, at most 1005 of them, none with an error status |
| `LoginsFinder.SingleExposedEndpoint` | wordpress_logins_finder/logins_finder.py:86-87 | when one URL yields a record and every other URL yields nothing (error status, fatal error or exhausted budget), the results are exactly that record |
| `LoginsFinder.UsersEndpointScenario` | wordpress_logins_finder/logins_finder.py:83-87 | when `target/wp-json/wp/v2/users` answers 200 on its first attempt and every other candidate yields nothing, the results are `[{url: target/wp-json/wp/v2/users, status_code: 200, body}]` |
| `LoginsFinder.ConnectorFailureUsesHttp` | wordpress_logins_finder/logins_finder.py:78-83 | after a connector failure of the probe of `https://domain` the scheme is `http`, and every non-numbered candidate starts with `http://domain` |

## Left out

- Concurrency: the bounded semaphore of 51 slots, `create_task` and `gather`. The URLs are fetched one after the other. `gather` returns results in input order, and that order is the only part of the scheduling the model keeps.
- aiohttp and the network: sessions, the connector without SSL checks, the session timeout and the request itself. Each attempt is a scripted `Attempt` value. `Fetch` requires a script at least as long as the retry limit, because the loop cannot make more attempts than that.
- JSON decoding of response bodies: the body is an abstract `Json` value already decoded. A decoding failure that aiohttp reports as a `ClientResponseError` is scripted as a `Retryable` attempt.
- Exceptions that `_fetch` does not catch, such as a `ValueError` from JSON decoding, would escape `gather` and end the run. No attempt kind models them.
- `str(URL(url))`: yarl's URL normalisation is not modelled. A record carries the candidate string unchanged.
- Logging, including the log messages of the retry loop and all of `wordpress_logins_finder/utils/logger_formater.py`.
- Command-line parsing, writing the results file and timing the run. The results file is named by `RESULT_FILE_NAME`, `results.json` unless the environment sets it; `--output` is ignored.
- Environment variables `LIMIT_OF_ATTEMPTS_TO_RETRY`, `DEFAULT_DEBUGGING` and `RESULT_FILE_NAME`: the model fixes them at their defaults 5, false and `results.json`; the retry limit is a natural-number parameter whose default is 5. A value taken from the environment is a string in the source, and the first retryable error then raises `TypeError` when the attempt number is computed (`wordpress_logins_finder/utils/request_manager.py:78`), which escapes `_fetch` and ends the run.
- `Config.TIMEOUT` (5) is defined but never used; the User-Agent header sent with each GET (`wordpress_logins_finder/utils/request_manager.py:66`) only affects the network exchange.
- The `Types` aliases in `constants.py`: they are type annotations only.
- The top-level `except Exception` handler of the script. `FindLogins` returns `Err` where the probe's exception would reach it.
