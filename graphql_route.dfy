/**
  The GraphQL endpoint test `preg_match('#/graphql/?$#', $uri)` of the plugin,
  with PCRE's own meaning of `$` (no D modifier): end of the subject, or just
  before a newline that is the subject's last character.
 */
module GraphqlRoute {

  /** The literal part of the pattern. */
  const ENDPOINT := "/graphql"

  /** The endpoint with the optional trailing slash present. */
  const ENDPOINT_SLASH := "/graphql/"

  /** PCRE `$` at position `p` of `s`. */
  predicate DollarAt(s: string, p: nat) {
    p == |s| || (p + 1 == |s| && s[p] == '\n')
  }

  /** The pattern matches with its first character at index `i`: `/graphql`, then
      an optional `/`, then `$`. Backtracking over the optional slash makes this
      the disjunction of its two alternatives. */
  predicate MatchesAt(s: string, i: nat) {
    var p := i + |ENDPOINT|;
    && p <= |s|
    && s[i..p] == ENDPOINT
    && ((p < |s| && s[p] == '/' && DollarAt(s, p + 1)) || DollarAt(s, p))
  }

  /** preg_match's unanchored search: try every start index from `from` on, left to right. */
  function SearchFrom(s: string, from: nat): (found: bool)
    ensures found <==> exists i: nat :: from <= i <= |s| && MatchesAt(s, i)
    decreases |s| - from
  {
    if from > |s| then false
    else MatchesAt(s, from) || SearchFrom(s, from + 1)
  }

  /** `preg_match('#/graphql/?$#', $uri)` returns 1. */
  predicate PregMatchGraphql(uri: string) {
    SearchFrom(uri, 0)
  }

  /** `s` ends with `suffix`. */
  predicate EndsWith(s: string, suffix: string) {
    |suffix| <= |s| && s[|s| - |suffix|..] == suffix
  }

  /** The characters of a suffix sit at the end of the string that ends with it. */
  lemma SuffixChar(s: string, suffix: string, k: nat)
    requires k < |suffix|
    ensures EndsWith(s, suffix) ==> s[|s| - |suffix| + k] == suffix[k]
  {
  }

  /** The subject less one final newline: where PCRE's `$` can close a match. */
  function StripFinalNewline(s: string): (t: string)
    ensures |t| <= |s| && t == s[..|t|]
    ensures |t| < |s| ==> |t| + 1 == |s| && s[|t|] == '\n'
  {
    if |s| > 0 && s[|s| - 1] == '\n' then s[..|s| - 1] else s
  }

  /** The endpoint rule stated as a suffix test: the URI, less at most one final
      newline, ends in `/graphql` or in `/graphql/`. Nothing anchors the start. */
  predicate IsGraphqlPath(uri: string) {
    var t := StripFinalNewline(uri);
    EndsWith(t, ENDPOINT) || EndsWith(t, ENDPOINT_SLASH)
  }

  /** A match found by the search ends the URI, less at most one final newline. */
  lemma MatchEndsPath(uri: string, i: nat)
    requires MatchesAt(uri, i)
    ensures IsGraphqlPath(uri)
  {
    var p := i + |ENDPOINT|;
    var word := uri[i..p];
    assert word == ENDPOINT;
    assert uri[p - 1] == word[|ENDPOINT| - 1] == 'l';
    if p < |uri| && uri[p] == '/' && DollarAt(uri, p + 1) {
      var t := uri[..p + 1];
      assert t == StripFinalNewline(uri);
      assert t[i..] == word + [uri[p]];
      assert EndsWith(t, ENDPOINT_SLASH);
    } else {
      var t := uri[..p];
      assert t == StripFinalNewline(uri);
      assert t[i..] == word;
      assert EndsWith(t, ENDPOINT);
    }
  }

  /** A URI that passes the suffix test has a match where the suffix starts. */
  lemma PathHasMatch(uri: string) returns (i: nat)
    requires IsGraphqlPath(uri)
    ensures i <= |uri| && MatchesAt(uri, i)
  {
    var t := StripFinalNewline(uri);
    var n := |ENDPOINT|;
    assert DollarAt(uri, |t|);
    if EndsWith(t, ENDPOINT) {
      i := |t| - n;
      assert uri[i..i + n] == t[i..];
    } else {
      i := |t| - n - 1;
      var tail := t[i..];
      assert tail == ENDPOINT_SLASH;
      assert tail[..n] == ENDPOINT;
      assert uri[i..i + n] == tail[..n];
      assert uri[i + n] == tail[n] == '/';
    }
  }

  /** The regex search and the suffix test agree on every URI. */
  lemma {:induction false} PregMatchIsSuffixTest(uri: string)
    ensures PregMatchGraphql(uri) <==> IsGraphqlPath(uri)
  {
    if PregMatchGraphql(uri) {
      var i: nat :| i <= |uri| && MatchesAt(uri, i);
      MatchEndsPath(uri, i);
    }
    if IsGraphqlPath(uri) {
      var i := PathHasMatch(uri);
    }
  }

  /** For a URI that does not end in a newline (a raw newline cannot appear in an
      HTTP request line) the rule is: ends in `/graphql` or `/graphql/`. */
  lemma EndpointRule(uri: string)
    requires !EndsWith(uri, "\n")
    ensures PregMatchGraphql(uri) <==> EndsWith(uri, ENDPOINT) || EndsWith(uri, ENDPOINT_SLASH)
  {
    PregMatchIsSuffixTest(uri);
    assert StripFinalNewline(uri) == uri;
  }

  /** Every URI the endpoint rule accepts ends in `l` or `l/`, less a final newline. */
  lemma NoMatchUnlessEndsInEndpointChars(uri: string)
    requires !EndsWith(uri, "\n")
    requires |uri| > 0 && uri[|uri| - 1] != 'l'
    requires uri[|uri| - 1] == '/' ==> |uri| < 2 || uri[|uri| - 2] != 'l'
    ensures !PregMatchGraphql(uri)
  {
    EndpointRule(uri);
    SuffixChar(uri, ENDPOINT, |ENDPOINT| - 1);
    SuffixChar(uri, ENDPOINT_SLASH, |ENDPOINT_SLASH| - 2);
  }

  /** The endpoint itself matches, with or without its trailing slash, and under any prefix. */
  lemma EndpointMatches()
    ensures PregMatchGraphql("/graphql")
    ensures PregMatchGraphql("/graphql/")
    ensures PregMatchGraphql("/wp/graphql")
  {
    EndpointRule(ENDPOINT);
    EndpointRule(ENDPOINT_SLASH);
    var prefixed := "/wp" + ENDPOINT;
    assert prefixed == "/wp/graphql";
    assert prefixed[|prefixed| - |ENDPOINT|..] == ENDPOINT;
    EndpointRule(prefixed);
  }

  /** Near misses do not match. The whole REQUEST_URI is tested, so a query string
      after the endpoint defeats the match. */
  lemma NearMissesDoNotMatch()
    ensures !PregMatchGraphql("/graphqlx")
    ensures !PregMatchGraphql("/graphql?query=x")
    ensures !PregMatchGraphql("/graphql?x=1")
    ensures !PregMatchGraphql("/graphql//")
    ensures !PregMatchGraphql("/")
  {
    NoMatchUnlessEndsInEndpointChars("/graphqlx");
    NoMatchUnlessEndsInEndpointChars("/graphql?query=x");
    NoMatchUnlessEndsInEndpointChars("/graphql?x=1");
    NoMatchUnlessEndsInEndpointChars("/graphql//");
    NoMatchUnlessEndsInEndpointChars("/");
  }

  /** PCRE's `$` also matches before one final newline. */
  lemma FinalNewlineMatches()
    ensures PregMatchGraphql("/graphql\n")
    ensures PregMatchGraphql("/graphql/\n")
  {
    PregMatchIsSuffixTest("/graphql\n");
    assert StripFinalNewline("/graphql\n") == ENDPOINT;
    PregMatchIsSuffixTest("/graphql/\n");
    assert StripFinalNewline("/graphql/\n") == ENDPOINT_SLASH;
  }

  /** Only one final newline is skipped by `$`. */
  lemma TwoFinalNewlinesDoNotMatch()
    ensures !PregMatchGraphql("/graphql\n\n")
  {
    var twice := "/graphql\n\n";
    PregMatchIsSuffixTest(twice);
    var t := StripFinalNewline(twice);
    assert t == "/graphql\n" && t[|t| - 1] == '\n';
  }
}
