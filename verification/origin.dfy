/** The CORS origin decision of the Express deployment: an allow-list of exact
    origins and anchored `http://<host>:<4 or 5 digits>` patterns. */
module Origin {
  import opened Js

  /** An allow-list entry: a string compared by equality, or the pattern
      `^<prefix>(\d{4,5})$` for a literal prefix such as `http://localhost:`. */
  datatype Rule = Exact(origin: string) | PortPattern(prefix: string)

  const LocalhostPrefix := "http://localhost:"
  const LoopbackPrefix := "http://127.0.0.1:"
  const DeployedOrigin := "https://lioraaipathfinder.netlify.app"

  /** The list as the server declares it: the production entry carries a trailing slash. */
  const AsWrittenAllowList: seq<Rule> :=
    [PortPattern(LocalhostPrefix), PortPattern(LoopbackPrefix), Exact(DeployedOrigin + "/")]

  /** The list with the production entry written as a browser sends it. */
  const AllowList: seq<Rule> :=
    [PortPattern(LocalhostPrefix), PortPattern(LoopbackPrefix), Exact(DeployedOrigin)]

  /** `\d`: an ASCII decimal digit. */
  predicate IsDigit(c: char) {
    '0' <= c <= '9'
  }

  predicate AllDigits(s: string) {
    forall i :: 0 <= i < |s| ==> IsDigit(s[i])
  }

  /** The anchored pattern, read character by character: the prefix, then
      four or five digits, then nothing more (`$` without the `m` flag). */
  predicate MatchesPort(prefix: string, o: string) {
    && |prefix| + 4 <= |o| <= |prefix| + 5
    && o[..|prefix|] == prefix
    && AllDigits(o[|prefix|..])
  }

  predicate Matches(r: Rule, o: string) {
    match r
    case Exact(s) => s == o
    case PortPattern(prefix) => MatchesPort(prefix, o)
  }

  /** `rules.some(...)`, checked left to right. */
  function AnyMatches(rules: seq<Rule>, o: string): (ok: bool)
    ensures ok <==> exists i :: 0 <= i < |rules| && Matches(rules[i], o)
  {
    if rules == [] then false
    else Matches(rules[0], o) || AnyMatches(rules[1..], o)
  }

  /** The `origin` callback: a missing (or empty) Origin is allowed, any other
      origin only when some rule matches it. */
  function Allowed(rules: seq<Rule>, origin: Option<string>): (ok: bool)
    ensures origin.None? || origin.value == "" ==> ok
    ensures origin.Some? && origin.value != "" ==> (ok <==> exists r :: r in rules && Matches(r, origin.value))
  {
    if origin.None? || Str(origin.value).IsFalsy() then true
    else AnyMatches(rules, origin.value)
  }

  function OriginAllowedAsWritten(origin: Option<string>): bool {
    Allowed(AsWrittenAllowList, origin)
  }

  function OriginAllowed(origin: Option<string>): bool {
    Allowed(AllowList, origin)
  }

  /** The pattern is exactly "prefix followed by a 4- or 5-digit port". */
  lemma MatchesPortIff(prefix: string, o: string)
    ensures MatchesPort(prefix, o) <==> exists port :: 4 <= |port| <= 5 && AllDigits(port) && o == prefix + port
  {
    if MatchesPort(prefix, o) {
      var port := o[|prefix|..];
      assert o == prefix + port;
    }
    if exists port :: 4 <= |port| <= 5 && AllDigits(port) && o == prefix + port {
      var port :| 4 <= |port| <= 5 && AllDigits(port) && o == prefix + port;
      assert o[..|prefix|] == prefix;
      assert o[|prefix|..] == port;
    }
  }

  /** A request without an Origin header is always allowed. */
  lemma NoOriginAllowed()
    ensures OriginAllowed(None) && OriginAllowedAsWritten(None)
  {
  }

  /** A port of fewer than four or more than five characters after the prefix never matches. */
  lemma PortLengthRejected(prefix: string, port: string)
    requires |port| < 4 || |port| > 5
    ensures !MatchesPort(prefix, prefix + port)
  {
  }

  /** Anything after the digits (a slash, a path, a newline) is rejected. */
  lemma TrailingCharacterRejected(prefix: string, port: string, c: char, rest: string)
    requires !IsDigit(c)
    ensures !MatchesPort(prefix, prefix + port + [c] + rest)
  {
    var o := prefix + port + [c] + rest;
    if |prefix| + 4 <= |o| <= |prefix| + 5 {
      assert o[|prefix|..][|port|] == c;
    }
  }

  /** An `https` origin never matches a local pattern, whatever follows the scheme. */
  lemma HttpsNotLocal(o: string)
    requires |o| >= 8 && o[..8] == "https://"
    ensures !MatchesPort(LocalhostPrefix, o)
    ensures !MatchesPort(LoopbackPrefix, o)
  {
    assert o[4] == o[..8][4] == 's';
    assert LocalhostPrefix[4] == ':' && LoopbackPrefix[4] == ':';
  }

  /** A development server on localhost or 127.0.0.1 with a 4- or 5-digit port is allowed. */
  lemma LocalDevelopmentAllowed(port: string)
    requires 4 <= |port| <= 5 && AllDigits(port)
    ensures OriginAllowed(Some(LocalhostPrefix + port))
    ensures OriginAllowed(Some(LoopbackPrefix + port))
    ensures OriginAllowedAsWritten(Some(LocalhostPrefix + port))
  {
    MatchesPortIff(LocalhostPrefix, LocalhostPrefix + port);
    MatchesPortIff(LoopbackPrefix, LoopbackPrefix + port);
    assert Matches(AllowList[0], LocalhostPrefix + port);
    assert Matches(AllowList[1], LoopbackPrefix + port);
  }

  /** As written, the production entry matches only an origin ending in `/`. */
  lemma AsWrittenNeedsSlash(o: string)
    requires o == "" || o[|o| - 1] != '/'
    ensures !Matches(AsWrittenAllowList[2], o)
  {
  }

  /** A browser's Origin header for the deployed site has no trailing slash,
      so, as written, the server rejects its own front end. */
  lemma DeployedOriginRejectedAsWritten()
    ensures !OriginAllowedAsWritten(Some(DeployedOrigin))
  {
    assert DeployedOrigin[..8] == "https://";
    HttpsNotLocal(DeployedOrigin);
    AsWrittenNeedsSlash(DeployedOrigin);
  }

  /** With the corrected entry the deployed front end is allowed, and every
      origin the written list allowed without a slash is still allowed. */
  lemma DeployedOriginAccepted(o: Option<string>)
    ensures OriginAllowed(Some(DeployedOrigin))
    ensures OriginAllowedAsWritten(o) && (o.None? || o.value == "" || o.value[|o.value| - 1] != '/') ==> OriginAllowed(o)
  {
    assert Matches(AllowList[2], DeployedOrigin);
    if OriginAllowedAsWritten(o) && o.Some? && o.value != "" && o.value[|o.value| - 1] != '/' {
      var r :| r in AsWrittenAllowList && Matches(r, o.value);
      AsWrittenNeedsSlash(o.value);
      assert r == AsWrittenAllowList[0] || r == AsWrittenAllowList[1];
      assert r in AllowList;
    }
  }
}
