/** Configuration constants, scheme stripping and the candidate URL list of the
    WordPress logins finder (wordpress_logins_finder/utils/constants.py). */
module Constants {
  import opened Wrappers

  // ---------------------------------------------------------------------------
  // Config
  // ---------------------------------------------------------------------------

  /** Session timeout in seconds, the default of the request manager. */
  const TimeoutDefault: nat := 60
  /** Default retry budget of one URL (LIMIT_OF_ATTEMPTS_TO_RETRY). */
  const LimitOfAttemptsToRetryDefault: nat := 5
  /** Step by which the retry budget shrinks and the failure counter grows. */
  const RequestsRetriesNumToRemove: nat := 1
  /** Status codes that mean "endpoint not exposed". */
  const ErrorsStatusCodes: seq<int> := [400, 403, 404, 500]
  /** DEFAULT_DEBUGGING and RESULT_FILE_NAME when the environment does not set them. */
  const DefaultDebugging: bool := false
  const ResultFileName: string := "results.json"

  /** The test `status_code in Config.ERRORS_STATUS_CODES`. */
  function IsErrorStatus(code: int): (r: bool)
    ensures r <==> code == 400 || code == 403 || code == 404 || code == 500
  {
    code in ErrorsStatusCodes
  }

  // ---------------------------------------------------------------------------
  // strip_scheme: re.sub(r'^https?://', '', url)
  // ---------------------------------------------------------------------------

  /** One element of a regular expression built from literal characters and `c?`. */
  datatype Piece = Lit(c: char) | Opt(c: char)

  /** The pattern `https?://`; the `^` anchor is expressed by matching only at
      the start of the subject (without MULTILINE, `^` matches at position 0
      only, so `re.sub` replaces at most one occurrence). */
  const SchemePattern: seq<Piece> :=
    [Lit('h'), Lit('t'), Lit('t'), Lit('p'), Opt('s'), Lit(':'), Lit('/'), Lit('/')]

  /** The pattern that matches the word `w` literally. */
  function Lits(w: string): (p: seq<Piece>)
    ensures |p| == |w| && forall k :: 0 <= k < |w| ==> p[k] == Lit(w[k])
  {
    if w == [] then [] else [Lit(w[0])] + Lits(w[1..])
  }

  /** Moves a match length `k` characters to the right. */
  function Plus(r: Option<nat>, k: nat): Option<nat>
  {
    match r
    case Some(n) => Some(n + k)
    case None => None
  }

  /** Length of the text that `pat` matches at the start of `s`, if any; an
      optional piece is tried with its character first and then without it,
      the order in which a backtracking engine tries a greedy `?`. */
  function MatchPrefix(pat: seq<Piece>, s: string): (r: Option<nat>)
    ensures r.Some? ==> r.value <= |s|
    decreases |pat|
  {
    if pat == [] then Some(0)
    else
      var taken := if |s| > 0 && s[0] == pat[0].c then Plus(MatchPrefix(pat[1..], s[1..]), 1) else None;
      match pat[0]
      case Lit(_) => taken
      case Opt(_) => if taken.Some? then taken else MatchPrefix(pat[1..], s)
  }

  /** A literal word followed by `rest` matches exactly when the subject starts
      with the word and `rest` matches what follows it. */
  lemma {:induction false} MatchLits(w: string, rest: seq<Piece>, s: string)
    ensures MatchPrefix(Lits(w) + rest, s)
         == if w <= s then Plus(MatchPrefix(rest, s[|w|..]), |w|) else None
    decreases |w|
  {
    if w != [] {
      var p := Lits(w) + rest;
      assert p[0] == Lit(w[0]) && p[1..] == Lits(w[1..]) + rest;
      if |s| > 0 && s[0] == w[0] {
        MatchLits(w[1..], rest, s[1..]);
        assert (w[1..] <= s[1..]) == (w <= s);
        if w <= s {
          assert s[1..][|w| - 1..] == s[|w|..];
        }
      } else {
        assert !(w <= s);
      }
    } else {
      assert Lits(w) + rest == rest;
    }
  }

  /** What `re.sub` leaves of `s` when `pat` is anchored at its start: the
      matched prefix removed, or `s` itself when there is no match. */
  function SubAnchored(pat: seq<Piece>, s: string): (r: string)
    ensures |r| <= |s| && r == s[|s| - |r|..]
  {
    match MatchPrefix(pat, s)
    case Some(n) => s[n..]
    case None => s
  }

  /** `strip_scheme`: removes a leading `https://` or `http://`. */
  function StripScheme(url: string): (r: string)
    ensures |r| <= |url| && r == url[|url| - |r|..]
    ensures r == url <==> !("https://" <= url || "http://" <= url)
  {
    if "https://" <= url then url[8..] else if "http://" <= url then url[7..] else url
  }

  /** An optional character followed by `rest`: taken when that succeeds,
      skipped otherwise. */
  lemma MatchOpt(c: char, rest: seq<Piece>, s: string)
    ensures MatchPrefix([Opt(c)] + rest, s)
         == if |s| > 0 && s[0] == c && MatchPrefix(rest, s[1..]).Some?
            then Plus(MatchPrefix(rest, s[1..]), 1)
            else MatchPrefix(rest, s)
  {
    var p := [Opt(c)] + rest;
    assert p[0] == Opt(c) && p[1..] == rest;
  }

  /** A literal word alone matches exactly the subjects that start with it. */
  lemma MatchWord(w: string, s: string)
    ensures MatchPrefix(Lits(w), s) == if w <= s then Some(|w|) else None
  {
    assert Lits(w) + [] == Lits(w);
    MatchLits(w, [], s);
  }

  /** A concatenation is a prefix exactly when its two parts are, one after the other. */
  lemma PrefixSplit(a: string, b: string, s: string)
    ensures (a + b <= s) <==> (a <= s && b <= s[|a|..])
  {
    if a <= s && b <= s[|a|..] {
      assert s[..|a| + |b|] == s[..|a|] + s[|a|..][..|b|];
    }
    if a + b <= s {
      assert s[..|a|] == (a + b)[..|a|];
      assert s[|a|..][..|b|] == (a + b)[|a|..];
    }
  }

  /** `https://` and `http://` split after their first four characters. */
  lemma SchemePrefixes(s: string)
    ensures ("https://" <= s) <==> ("http" <= s && "s://" <= s[4..])
    ensures ("http://" <= s) <==> ("http" <= s && "://" <= s[4..])
  {
    assert "http" + "s://" == "https://";
    assert "http" + "://" == "http://";
    PrefixSplit("http", "s://", s);
    PrefixSplit("http", "://", s);
  }

  /** The pattern read as three parts: `http`, an optional `s`, `://`. */
  lemma SchemePatternParts()
    ensures SchemePattern == Lits("http") + ([Opt('s')] + Lits("://"))
  {
  }

  /** After `http`, what the rest of the pattern (`s?://`) matches. */
  lemma SchemeMatchAfterHttp(s: string)
    requires "http" <= s
    ensures MatchPrefix(SchemePattern, s) == Plus(MatchPrefix([Opt('s')] + Lits("://"), s[4..]), 4)
  {
    SchemePatternParts();
    MatchLits("http", [Opt('s')] + Lits("://"), s);
  }

  lemma SchemeMatchHttps(s: string)
    requires "https://" <= s
    ensures MatchPrefix(SchemePattern, s) == Some(8)
  {
    SchemePrefixes(s);
    SchemeMatchAfterHttp(s);
    var t := s[4..];
    PrefixSplit("s", "://", t);
    assert "s" + "://" == "s://";
    MatchWord("://", t[1..]);
    MatchOpt('s', Lits("://"), t);
  }

  lemma SchemeMatchHttp(s: string)
    requires "http://" <= s
    ensures MatchPrefix(SchemePattern, s) == Some(7)
  {
    SchemePrefixes(s);
    SchemeMatchAfterHttp(s);
    var t := s[4..];
    assert t[0] == ':';
    MatchWord("://", t);
    MatchOpt('s', Lits("://"), t);
  }

  lemma SchemeMatchNone(s: string)
    requires !("https://" <= s) && !("http://" <= s)
    ensures MatchPrefix(SchemePattern, s) == None
  {
    SchemePrefixes(s);
    if "http" <= s {
      SchemeMatchAfterHttp(s);
      var t := s[4..];
      MatchWord("://", t);
      MatchOpt('s', Lits("://"), t);
      if |t| > 0 && t[0] == 's' {
        PrefixSplit("s", "://", t);
        assert "s" + "://" == "s://";
        MatchWord("://", t[1..]);
      }
    } else {
      SchemePatternParts();
      MatchLits("http", [Opt('s')] + Lits("://"), s);
    }
  }

  /** The length of the match of `^https?://`. */
  lemma SchemeMatchLength(s: string)
    ensures MatchPrefix(SchemePattern, s)
         == if "https://" <= s then Some(8) else if "http://" <= s then Some(7) else None
  {
    if "https://" <= s {
      SchemeMatchHttps(s);
    } else if "http://" <= s {
      SchemeMatchHttp(s);
    } else {
      SchemeMatchNone(s);
    }
  }

  /** `strip_scheme` is the substitution of the empty string for the text that
      the anchored pattern `^https?://` matches; in particular it leaves a
      suffix of its input, never a longer string. */
  lemma StripSchemeIsRegexSubstitution(url: string)
    ensures StripScheme(url) == SubAnchored(SchemePattern, url)
    ensures |StripScheme(url)| <= |url| && StripScheme(url) == url[|url| - |StripScheme(url)|..]
  {
    SchemeMatchLength(url);
  }

  // ---------------------------------------------------------------------------
  // Decimal rendering of the numbered user IDs (Python's str on a nat)
  // ---------------------------------------------------------------------------

  predicate IsDigit(c: char) { '0' <= c <= '9' }

  predicate AllDigits(s: string) { forall k :: 0 <= k < |s| ==> IsDigit(s[k]) }

  function DigitChar(d: nat): (c: char)
    requires d < 10
    ensures IsDigit(c)
  {
    ('0' as int + d) as char
  }

  function DigitValue(c: char): (d: nat)
    requires IsDigit(c)
    ensures d < 10 && DigitChar(d) == c
  {
    c as int - '0' as int
  }

  /** The decimal digits of `n`, most significant first, without leading zeros. */
  function Decimal(n: nat): (s: string)
    ensures |s| >= 1 && AllDigits(s)
    ensures n > 0 ==> s[0] != '0'
    decreases n
  {
    if n < 10 then [DigitChar(n)] else Decimal(n / 10) + [DigitChar(n % 10)]
  }

  /** The number a string of decimal digits denotes. */
  function DecimalValue(s: string): nat
    requires AllDigits(s)
    decreases |s|
  {
    if s == [] then 0 else DecimalValue(s[..|s| - 1]) * 10 + DigitValue(s[|s| - 1])
  }

  /** Reading back a rendered number gives the number. */
  lemma {:induction false} DecimalRoundTrip(n: nat)
    ensures DecimalValue(Decimal(n)) == n
    decreases n
  {
    if n >= 10 {
      var s := Decimal(n);
      assert s[..|s| - 1] == Decimal(n / 10);
      DecimalRoundTrip(n / 10);
    }
  }

  /** Different numbers are rendered differently. */
  lemma DecimalInjective(m: nat, n: nat)
    requires Decimal(m) == Decimal(n)
    ensures m == n
  {
    DecimalRoundTrip(m);
    DecimalRoundTrip(n);
  }

  // ---------------------------------------------------------------------------
  // targets_to_check
  // ---------------------------------------------------------------------------

  /** The five fixed paths probed below the target, in the order they are listed. */
  const FixedSuffixes: seq<string> := [
    "/blog/wp-json/wp/v2/users",
    "/blog/?rest_route=/wp/v2/users",
    "/wp-json/wp/v2/users",
    "/section/news?rest_route=/wp/v2/users",
    "/section/news?rest_route=/wp/v2/usErs"
  ]
  /** Path of the numbered user endpoints (emitted without the target). */
  const UsersPath: string := "/wp-json/wp/v2/users/"
  /** Path and query of the search-by-admin-e-mail endpoint. */
  const SearchPath: string := "/wp-json/wp/v2/users?search=admin@"
  /** Number of numbered user IDs: range(1, 1000). */
  const NumberedUsers: nat := 999
  /** Length of the whole candidate list: 5 + 999 + 1. */
  const CandidateCount: nat := 1005

  /** The five fixed URLs: the target followed by each fixed path. */
  function FixedTargets(target: string): seq<string>
  {
    seq(|FixedSuffixes|, k requires 0 <= k < |FixedSuffixes| => target + FixedSuffixes[k])
  }

  function NumberedUserPath(i: nat): string
  {
    UsersPath + Decimal(i)
  }

  /** The numbered user paths for IDs 1..n, in increasing order. */
  function NumberedPaths(n: nat): (r: seq<string>)
    ensures |r| == n && forall k :: 0 <= k < n ==> r[k] == UsersPath + Decimal(k + 1)
  {
    if n == 0 then [] else NumberedPaths(n - 1) + [NumberedUserPath(n)]
  }

  /** What follows the target in the search URL. */
  function SearchQuery(target: string): string
  {
    SearchPath + StripScheme(target)
  }

  function SearchTarget(target: string): string
  {
    target + SearchQuery(target)
  }

  /** The candidate URL list of `targets_to_check`, as a value. */
  function CandidateUrls(target: string): (urls: seq<string>)
    ensures |urls| == CandidateCount
    ensures urls[CandidateCount - 1] == target + SearchPath + StripScheme(target)
  {
    FixedTargets(target) + NumberedPaths(NumberedUsers) + [SearchTarget(target)]
  }

  /** `targets_to_check`: builds the list in place, the numbered paths one by one. */
  method TargetsToCheck(target: string) returns (targetUrls: seq<string>)
    ensures targetUrls == CandidateUrls(target)
  {
    targetUrls := FixedTargets(target);
    var i := 1;
    while i < NumberedUsers + 1
      invariant 1 <= i <= NumberedUsers + 1
      invariant targetUrls == FixedTargets(target) + NumberedPaths(i - 1)
    {
      targetUrls := targetUrls + [NumberedUserPath(i)];
      i := i + 1;
    }
    targetUrls := targetUrls + [SearchTarget(target)];
  }

  /** The five fixed URLs head the list, each the target followed by its path. */
  lemma FixedCandidate(target: string, k: nat)
    requires k < 5
    ensures |CandidateUrls(target)| == CandidateCount
    ensures CandidateUrls(target)[k] == target + FixedSuffixes[k]
  {
    var fixed := FixedTargets(target);
    assert CandidateUrls(target)[k] == fixed[k];
  }

  /** Positions 5..1003 hold the numbered paths for IDs 1..999. */
  lemma NumberedCandidate(target: string, k: nat)
    requires 5 <= k < CandidateCount - 1
    ensures |CandidateUrls(target)| == CandidateCount
    ensures CandidateUrls(target)[k] == UsersPath + Decimal(k - 4)
  {
    var numbered := NumberedPaths(NumberedUsers);
    assert CandidateUrls(target)[k] == numbered[k - 5];
  }

  /** The search URL closes the list. */
  lemma LastCandidate(target: string)
    ensures |CandidateUrls(target)| == CandidateCount
    ensures CandidateUrls(target)[CandidateCount - 1] == target + SearchQuery(target)
    ensures SearchQuery(target) == SearchPath + StripScheme(target)
  {
    var init := FixedTargets(target) + NumberedPaths(NumberedUsers);
    assert CandidateUrls(target) == init + [SearchTarget(target)];
  }

  /** The shape of the candidate list: five fixed URLs below the target, the
      999 numbered paths in increasing order, and the search URL last. */
  lemma CandidateUrlsShape(target: string)
    ensures |CandidateUrls(target)| == CandidateCount
    ensures forall k :: 0 <= k < 5 ==> CandidateUrls(target)[k] == target + FixedSuffixes[k]
    ensures forall k :: 5 <= k < CandidateCount - 1 ==>
              CandidateUrls(target)[k] == UsersPath + Decimal(k - 4)
    ensures CandidateUrls(target)[CandidateCount - 1] == target + (SearchPath + StripScheme(target))
  {
    forall k | 0 <= k < 5
      ensures CandidateUrls(target)[k] == target + FixedSuffixes[k]
    {
      FixedCandidate(target, k);
    }
    forall k | 5 <= k < CandidateCount - 1
      ensures CandidateUrls(target)[k] == UsersPath + Decimal(k - 4)
    {
      NumberedCandidate(target, k);
    }
    LastCandidate(target);
  }

  lemma PrefixOfConcat(a: string, b: string)
    ensures a <= a + b
  {
    assert (a + b)[..|a|] == a;
  }

  /** Every URL except the numbered ones starts with the target. */
  lemma CandidatesBelowTarget(target: string, k: nat)
    requires k < 5 || k == CandidateCount - 1
    ensures k < |CandidateUrls(target)| && target <= CandidateUrls(target)[k]
  {
    if k < 5 {
      FixedCandidate(target, k);
      PrefixOfConcat(target, FixedSuffixes[k]);
    } else {
      LastCandidate(target);
      PrefixOfConcat(target, SearchQuery(target));
    }
  }

  /** The numbered paths are relative: unless the target itself starts with a
      slash, none of them starts with the target. */
  lemma NumberedLackTarget(target: string, k: nat)
    requires 5 <= k < CandidateCount - 1
    requires |target| > 0 && target[0] != '/'
    ensures !(target <= CandidateUrls(target)[k])
  {
    NumberedCandidate(target, k);
    assert CandidateUrls(target)[k][0] == UsersPath[0] == '/';
  }

  /** The 999 numbered paths are pairwise different. */
  lemma NumberedDistinct(target: string, k: nat, m: nat)
    requires 5 <= k < m < CandidateCount - 1
    ensures CandidateUrls(target)[k] != CandidateUrls(target)[m]
  {
    NumberedCandidate(target, k);
    NumberedCandidate(target, m);
    var u, v := CandidateUrls(target)[k], CandidateUrls(target)[m];
    if u == v {
      assert u[|UsersPath|..] == Decimal(k - 4);
      assert v[|UsersPath|..] == Decimal(m - 4);
      DecimalInjective(k - 4, m - 4);
    }
  }
}
