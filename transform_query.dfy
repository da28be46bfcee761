/** The search-query rewriter `transformQuery`: a query that is exactly one
    ATT dataset URN, optionally as a `urn.fi` resolver link and optionally
    surrounded by whitespace, becomes the bare URN; any other query is kept as
    it is. The behaviour pinned by `__tests__/transformQuery.test.jsx` is
    proved as the `Case...` lemmas below. */
module TransformQuery {

  const ATT_PREFIX := "urn:nbn:fi:att:"
  const HTTP_RESOLVER := "http://urn.fi/"
  const HTTPS_RESOLVER := "https://urn.fi/"
  const BARE_RESOLVER := "urn.fi/"

  /** The prefixes that may stand in front of the URN. */
  const RESOLVER_PREFIXES: seq<string> := ["", HTTP_RESOLVER, HTTPS_RESOLVER, BARE_RESOLVER]

  /** The whitespace `String.prototype.trim` removes, as far as modelled. */
  predicate IsSpace(c: char) {
    c == ' ' || c == '\t' || c == '\n' || c == '\r' || c == '\U{000B}' || c == '\U{000C}'
    || c == '\U{00A0}' || c == '\U{FEFF}'
  }

  predicate NoSpace(s: string) {
    forall i :: 0 <= i < |s| ==> !IsSpace(s[i])
  }

  function TrimStart(s: string): (r: string)
    ensures |r| <= |s| && r == s[|s| - |r|..]
    ensures r != "" ==> !IsSpace(r[0])
    ensures forall k :: 0 <= k < |s| - |r| ==> IsSpace(s[k])
  {
    if s != "" && IsSpace(s[0]) then TrimStart(s[1..]) else s
  }

  function TrimEnd(s: string): (r: string)
    ensures r <= s
    ensures r != "" ==> !IsSpace(r[|r| - 1])
    ensures forall k :: |r| <= k < |s| ==> IsSpace(s[k])
  {
    if s != "" && IsSpace(s[|s| - 1]) then TrimEnd(s[..|s| - 1]) else s
  }

  /** `s.trim()`. */
  function Trim(s: string): string {
    TrimEnd(TrimStart(s))
  }

  /** A string without whitespace at either end is its own trim. */
  lemma TrimUntouched(s: string)
    requires s == "" || (!IsSpace(s[0]) && !IsSpace(s[|s| - 1]))
    ensures Trim(s) == s
  {
  }

  /** A single ATT URN: the prefix, at least one more character, and no
      whitespace anywhere. */
  predicate IsAttUrn(u: string) {
    |u| > |ATT_PREFIX| && ATT_PREFIX <= u && NoSpace(u)
  }

  /** The query with a leading resolver link removed. */
  function StripResolver(t: string): (u: string)
    ensures exists p :: p in RESOLVER_PREFIXES && t == p + u
  {
    if HTTP_RESOLVER <= t then
      assert t == HTTP_RESOLVER + t[|HTTP_RESOLVER|..];
      t[|HTTP_RESOLVER|..]
    else if HTTPS_RESOLVER <= t then
      assert t == HTTPS_RESOLVER + t[|HTTPS_RESOLVER|..];
      t[|HTTPS_RESOLVER|..]
    else if BARE_RESOLVER <= t then
      assert t == BARE_RESOLVER + t[|BARE_RESOLVER|..];
      t[|BARE_RESOLVER|..]
    else
      assert t == "" + t;
      t
  }

  /** `transformQuery(q)`. */
  function Transform(q: string): (r: string)
    ensures r == q || IsAttUrn(r)
    ensures r != q ==> exists p :: p in RESOLVER_PREFIXES && Trim(q) == p + r
  {
    var u := StripResolver(Trim(q));
    if IsAttUrn(u) then u else q
  }

  /** An ATT URN does not start like any resolver link. */
  lemma AttUrnHasNoResolver(u: string)
    requires IsAttUrn(u)
    ensures StripResolver(u) == u
  {
    assert u[0] == 'u' && u[3] == ':';
  }

  /** Removing the resolver from a resolver prefix followed by an ATT URN
      leaves the URN. */
  lemma StripResolverOfPrefixed(p: string, u: string)
    requires p in RESOLVER_PREFIXES && |u| > |ATT_PREFIX| && ATT_PREFIX <= u
    ensures StripResolver(p + u) == u
  {
    var t := p + u;
    assert u[0] == 'u' && u[3] == ':';
    if p == "" {
      assert t == u;
    } else if p == HTTP_RESOLVER {
      assert t[..|p|] == p && t[|p|..] == u;
    } else if p == HTTPS_RESOLVER {
      assert t[4] == 's';
      assert t[..|p|] == p && t[|p|..] == u;
    } else {
      assert t[0] == 'u';
      assert t[..|p|] == p && t[|p|..] == u;
    }
  }

  /** Whenever the trimmed query is a resolver prefix followed by an ATT URN,
      the result is that URN. */
  lemma TransformRecognises(q: string, p: string, u: string)
    requires p in RESOLVER_PREFIXES && IsAttUrn(u) && Trim(q) == p + u
    ensures Transform(q) == u
  {
    StripResolverOfPrefixed(p, u);
  }

  /** A resolver prefix followed by an ATT URN, with nothing around it,
      becomes the URN. */
  lemma TransformOfPrefixed(p: string, u: string)
    requires p in RESOLVER_PREFIXES && IsAttUrn(u)
    ensures Transform(p + u) == u
  {
    var q := p + u;
    assert q[|q| - 1] == u[|u| - 1];
    assert q[0] == if p == "" then u[0] else p[0];
    TrimUntouched(q);
    TransformRecognises(q, p, u);
  }

  lemma TrimStartOneSpace(u: string)
    requires u != "" && !IsSpace(u[0])
    ensures TrimStart(" " + u) == u
  {
    assert (" " + u)[1..] == u;
  }

  lemma TrimEndOneSpace(u: string)
    requires u != "" && !IsSpace(u[|u| - 1])
    ensures TrimEnd(u + " ") == u
  {
    assert (u + " ")[..|u|] == u;
  }

  lemma TrimPadded(u: string)
    requires u != "" && !IsSpace(u[0]) && !IsSpace(u[|u| - 1])
    ensures Trim(" " + u + " ") == u
  {
    var v := u + " ";
    assert " " + u + " " == " " + v;
    TrimStartOneSpace(v);
    TrimEndOneSpace(u);
  }

  /** An ATT URN with one space on either side becomes the URN. */
  lemma TransformOfPadded(u: string)
    requires IsAttUrn(u)
    ensures Transform(" " + u + " ") == u
  {
    assert !IsSpace(u[0]) && !IsSpace(u[|u| - 1]);
    TrimPadded(u);
    AttUrnHasNoResolver(u);
  }

  /** Rewriting a rewritten query changes nothing. */
  lemma TransformIdempotent(q: string)
    ensures Transform(Transform(q)) == Transform(q)
  {
    var r := Transform(q);
    if r != q {
      assert IsAttUrn(r);
      TrimUntouched(r);
      AttUrnHasNoResolver(r);
    }
  }

  /** A string that starts with neither `h` nor `u` has no resolver prefix. */
  lemma StripResolverKeeps(t: string)
    requires t == "" || (t[0] != 'h' && t[0] != 'u') || (t[0] == 'u' && |t| > 3 && t[3] != '.')
    ensures StripResolver(t) == t
  {
    if t != "" && t[0] == 'u' {
      assert HTTP_RESOLVER[0] == 'h' && HTTPS_RESOLVER[0] == 'h' && BARE_RESOLVER[3] == '.';
    }
  }

  lemma CaseEmpty()
    ensures Transform("") == ""
  {
  }

  lemma CaseNoAttIdentifier()
    ensures Transform("test query") == "test query"
  {
    var q := "test query";
    TrimUntouched(q);
    StripResolverKeeps(q);
    assert q[0] != ATT_PREFIX[0];
  }

  lemma CaseHttpWithoutIdentifier()
    ensures Transform("http://urn.fi/abc123") == "http://urn.fi/abc123"
  {
    var q := "http://urn.fi/abc123";
    TrimUntouched(q);
    assert q[..|HTTP_RESOLVER|] == HTTP_RESOLVER;
    assert StripResolver(q) == q[|HTTP_RESOLVER|..] == "abc123";
  }

  lemma CaseUrnFiWithoutIdentifier()
    ensures Transform("urn.fi/abc123") == "urn.fi/abc123"
  {
    var q := "urn.fi/abc123";
    TrimUntouched(q);
    assert q[0] != HTTP_RESOLVER[0] && q[0] != HTTPS_RESOLVER[0];
    assert q[..|BARE_RESOLVER|] == BARE_RESOLVER;
    assert StripResolver(q) == q[|BARE_RESOLVER|..] == "abc123";
  }

  lemma CaseUrnAndSomethingElse()
    ensures Transform("urn:nbn:fi:att:12345 query") == "urn:nbn:fi:att:12345 query"
  {
    var q := "urn:nbn:fi:att:12345 query";
    TrimUntouched(q);
    StripResolverKeeps(q);
    assert IsSpace(q[20]);
  }

  lemma CaseOtherThanAttUrn()
    ensures Transform("urn:nbn:fi:lb:12345") == "urn:nbn:fi:lb:12345"
  {
    var q := "urn:nbn:fi:lb:12345";
    TrimUntouched(q);
    StripResolverKeeps(q);
    assert q[11] != ATT_PREFIX[11];
  }

  /** `validAttUrn` of the test cases. */
  const VALID_ATT_URN := "urn:nbn:fi:att:12345"

  lemma ValidUrn()
    ensures IsAttUrn(VALID_ATT_URN)
  {
    assert VALID_ATT_URN[..|ATT_PREFIX|] == ATT_PREFIX;
  }

  lemma CaseHttp()
    ensures Transform(HTTP_RESOLVER + VALID_ATT_URN) == VALID_ATT_URN
  {
    ValidUrn();
    TransformOfPrefixed(HTTP_RESOLVER, VALID_ATT_URN);
  }

  lemma CaseUrnFi()
    ensures Transform(BARE_RESOLVER + VALID_ATT_URN) == VALID_ATT_URN
  {
    ValidUrn();
    TransformOfPrefixed(BARE_RESOLVER, VALID_ATT_URN);
  }

  lemma CaseUrn()
    ensures Transform(VALID_ATT_URN) == VALID_ATT_URN
  {
    TrimUntouched(VALID_ATT_URN);
    ValidUrn();
    AttUrnHasNoResolver(VALID_ATT_URN);
  }

  lemma CaseWhitespaces()
    ensures Transform(" " + VALID_ATT_URN + " ") == VALID_ATT_URN
  {
    ValidUrn();
    TransformOfPadded(VALID_ATT_URN);
  }
}
