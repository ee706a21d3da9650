/** The URL heuristic that decides whether a search hit looks like a LinkedIn organisation page. */
module UtilsSearch {
  import opened Text

  /** The host fragment; the test for it is case-sensitive and looks at the whole URL. */
  const Host := "linkedin.com"

  /** `p` is the part of `url` before its first `?` (all of it when there is none). */
  predicate BeforeFirstQuery(url: string, p: string) {
    p <= url && '?' !in p && (|p| == |url| || url[|p|] == '?')
  }

  lemma BeforeFirstQueryUnique(url: string, p: string, q: string)
    requires BeforeFirstQuery(url, p) && BeforeFirstQuery(url, q)
    ensures p == q
  {
  }

  /** `url.split("?")[0]`. */
  function PathPart(url: string): (p: string)
    ensures BeforeFirstQuery(url, p)
  {
    SplitFirstPiece(url, '?');
    Split(url, '?')[0]
  }

  /** `any(path in lowered for path in ("/company/", "/school/", "/showcase/"))`. */
  predicate HasProfileSegment(lowered: string) {
    Contains(lowered, "/company/") || Contains(lowered, "/school/") || Contains(lowered, "/showcase/")
  }

  /**
   * `is_probable_linkedin_company_url`: the URL contains `linkedin.com`
   * anywhere, and its part before the first `?`, lowercased, contains one of
   * the organisation path segments. Total on every string.
   */
  predicate IsProbableLinkedInCompanyUrl(url: string)
    ensures IsProbableLinkedInCompanyUrl(url) ==> Contains(url, Host)
    ensures IsProbableLinkedInCompanyUrl(url) <==>
              Contains(url, Host)
              && exists p :: BeforeFirstQuery(url, p) && HasProfileSegment(Lower(p))
  {
    if !Contains(url, Host) then false
    else
      var lowered := Lower(PathPart(url));
      assert forall p :: BeforeFirstQuery(url, p) ==> Lower(p) == lowered by {
        forall p | BeforeFirstQuery(url, p) ensures Lower(p) == lowered {
          BeforeFirstQueryUnique(url, p, PathPart(url));
        }
      }
      HasProfileSegment(lowered)
  }

  /** For a URL without `?` the whole URL is the part the segment test looks at. */
  lemma QueryFreeSegment(u: string)
    requires '?' !in u
    requires IsProbableLinkedInCompanyUrl(u)
    ensures HasProfileSegment(Lower(u))
  {
    var p :| BeforeFirstQuery(u, p) && HasProfileSegment(Lower(p));
    assert BeforeFirstQuery(u, u);
    BeforeFirstQueryUnique(u, p, u);
  }

  /** Appending anything keeps the host that was there. */
  lemma HostSurvivesSuffix(u: string, t: string)
    requires Contains(u, Host)
    ensures Contains(u + t, Host)
  {
    ContainsExtend([], u, t, Host);
    assert [] + u + t == u + t;
  }

  /** Adding a query string to a URL without one never turns a match into a miss. */
  lemma QueryKeepsMatch(u: string, s: string)
    requires '?' !in u
    requires IsProbableLinkedInCompanyUrl(u)
    ensures IsProbableLinkedInCompanyUrl(u + "?" + s)
  {
    var url := u + "?" + s;
    QueryFreeSegment(u);
    HostSurvivesSuffix(u, "?" + s);
    assert url == u + ("?" + s);
    assert BeforeFirstQuery(url, u);
  }

  /** A path segment that appears only after the first `?` does not count. */
  lemma SegmentInQueryIgnored(u: string, s: string)
    requires '?' !in u
    requires !HasProfileSegment(Lower(u))
    ensures !IsProbableLinkedInCompanyUrl(u + "?" + s)
  {
    var url := u + "?" + s;
    assert BeforeFirstQuery(url, u);
    forall p | BeforeFirstQuery(url, p) ensures !HasProfileSegment(Lower(p)) {
      BeforeFirstQueryUnique(url, p, u);
    }
  }

  /** The host test is not confined to the host: `linkedin.com` in the query string is enough. */
  lemma HostInQueryCounts(u: string, s: string)
    requires '?' !in u
    requires HasProfileSegment(Lower(u))
    requires Contains(s, Host)
    ensures IsProbableLinkedInCompanyUrl(u + "?" + s)
  {
    var url := u + "?" + s;
    assert BeforeFirstQuery(url, u);
    ContainsExtend(u + "?", s, [], Host);
    assert u + "?" + s + [] == url;
  }

  /** The host test is case-sensitive: without a lower-case `l` there is no `linkedin.com`. */
  lemma HostNeedsLowerCase(url: string)
    requires 'l' !in url
    ensures !IsProbableLinkedInCompanyUrl(url)
  {
    if Contains(url, Host) {
      ContainsFirstChar(url, Host);
    }
  }

  /** A `?`-free start keeps its place in front of the first `?`. */
  lemma PrefixBeforeQuery(u: string, b: string)
    requires '?' !in u
    ensures BeforeFirstQuery(u + b, u + PathPart(b))
  {
    var q := PathPart(b);
    if |q| < |b| {
      assert (u + b)[|u + q|] == b[|q|];
    }
  }

  /** Any spelling of an organisation segment, wherever it stands, lower-cases to a match. */
  lemma SegmentLowersToMatch(x: string, seg: string, y: string)
    requires Lower(seg) in ["/company/", "/school/", "/showcase/"]
    ensures HasProfileSegment(Lower(x + seg + y))
  {
    var l := Lower(seg);
    LowerAppend(x + seg, y);
    LowerAppend(x, seg);
    assert Contains(l, l) by { assert l <= l; }
    ContainsExtend(Lower(x), l, Lower(y), l);
    assert Lower(x + seg + y) == Lower(x) + l + Lower(y);
  }

  /**
   * The path segments are matched without regard to case: `/Company/`,
   * `/SCHOOL/` and every other spelling qualify, wherever they stand before
   * the first `?`, whatever follows.
   */
  lemma SegmentCaseIgnored(a: string, seg: string, b: string)
    requires '?' !in a + seg
    requires Contains(a + seg + b, Host)
    requires Lower(seg) in ["/company/", "/school/", "/showcase/"]
    ensures IsProbableLinkedInCompanyUrl(a + seg + b)
  {
    var q := PathPart(b);
    PrefixBeforeQuery(a + seg, b);
    SegmentLowersToMatch(a, seg, q);
    assert BeforeFirstQuery(a + seg + b, a + seg + q) && HasProfileSegment(Lower(a + seg + q));
  }

  /** The host, unlike the path, is case-sensitive: a capitalised `LinkedIn.com` fails. */
  lemma MixedCaseHostFails(url: string)
    requires url == "https://www.LinkedIn.com/company/acme"
    ensures !IsProbableLinkedInCompanyUrl(url)
  {
    HostNeedsLowerCase(url);
  }
}
