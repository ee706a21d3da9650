/**
 * `LinkedInFinder`: turns a company name into a normalised record by
 * searching the web and choosing the most likely LinkedIn organisation URL
 * among the hits. The search engine itself (`search_bing`, an HTTP request
 * and HTML parsing) is an oracle: a function from the request to either a
 * failure or the list of hits it parsed.
 */
module Finder {
  import opened Optional
  import opened Text
  import opened Records
  import UtilsSearch

  const DefaultEngine := "bing"
  const DefaultUserAgent := "LinkedInCompanyFinderBot/1.0"
  const QueryPrefix := "linkedin company "

  /** One parsed hit; `url` is what `result.get("url")` gives. */
  datatype SearchResult = SearchResult(title: string, url: Option<string>, snippet: string)

  /** The arguments `_search` hands to `search_bing`. */
  datatype SearchRequest = SearchRequest(query: string, timeout: int, userAgent: string)

  /** What `search_bing` does: return the parsed hits, or raise a `requests.RequestException`. */
  datatype BingResponse = Hits(items: seq<SearchResult>) | RequestFailed

  /** The exception `_search` lets through: the transport's, or its own `RuntimeError`. */
  datatype SearchError = NetworkError | UnsupportedEngine(engine: string)

  datatype SearchOutcome = Results(items: seq<SearchResult>) | Failed(error: SearchError)

  datatype Status = Found | NotFound | Error

  function StatusText(s: Status): string {
    match s
    case Found => "LinkedIn Found"
    case NotFound => "LinkedIn Not Found"
    case Error => "Error"
  }

  /** The record `find_company_profile` returns. */
  datatype Profile = Profile(companyName: string, searchQuery: string, linkedinUrl: Option<string>, infoStatus: Status)

  /** A URL is reported exactly when the status says it was found. */
  predicate Consistent(p: Profile) {
    p.infoStatus == Found <==> p.linkedinUrl.Some?
  }

  /** The dict view of a profile, with the four camel-case keys in insertion order. */
  function ToRecord(p: Profile): (r: Record)
    ensures DistinctKeys(r) && |r| == 4
    ensures Get(r, "companyName") == Some(Str(p.companyName))
    ensures Get(r, "searchQuery") == Some(Str(p.searchQuery))
    ensures Get(r, "linkedinUrl") == Some(if p.linkedinUrl.Some? then Str(p.linkedinUrl.value) else Null)
    ensures Get(r, "infoStatus") == Some(Str(StatusText(p.infoStatus)))
    ensures [r[0].key, r[1].key, r[2].key, r[3].key] == ["companyName", "searchQuery", "linkedinUrl", "infoStatus"]
  {
    var r := [ Field("companyName", Str(p.companyName)),
               Field("searchQuery", Str(p.searchQuery)),
               Field("linkedinUrl", if p.linkedinUrl.Some? then Str(p.linkedinUrl.value) else Null),
               Field("infoStatus", Str(StatusText(p.infoStatus))) ];
    assert Get(r[3..], "infoStatus") == Some(Str(StatusText(p.infoStatus)));
    assert Get(r[2..], "infoStatus") == Get(r[3..], "infoStatus");
    assert Get(r[2..], "linkedinUrl") == Some(r[2].value);
    r
  }

  // ---------------------------------------------------------------------------
  // Configuration

  datatype FinderSettings = FinderSettings(searchEngine: string, timeout: int, userAgent: string)

  lemma DefaultEngineIsLower()
    ensures Lower(DefaultEngine) == DefaultEngine
  {
    LowerOfNoUpper(DefaultEngine);
  }

  /**
   * What the constructor makes of its arguments: an engine other than
   * (any spelling of) `bing` becomes `bing`, an empty user agent becomes
   * the default one, and the timeout is kept.
   */
  function Normalise(searchEngine: string, timeout: int, userAgent: string): (s: FinderSettings)
    ensures Lower(s.searchEngine) == DefaultEngine
    ensures Lower(searchEngine) == DefaultEngine ==> s.searchEngine == searchEngine
    ensures Lower(searchEngine) != DefaultEngine ==> s.searchEngine == DefaultEngine
    ensures s.timeout == timeout
    ensures s.userAgent != "" && (userAgent != "" ==> s.userAgent == userAgent)
    ensures userAgent == "" ==> s.userAgent == DefaultUserAgent
  {
    DefaultEngineIsLower();
    var engine := if Lower(searchEngine) != DefaultEngine then DefaultEngine else searchEngine;
    FinderSettings(engine, timeout, if userAgent == "" then DefaultUserAgent else userAgent)
  }

  /** `_build_search_query`: the fixed prefix followed by the name, so the name can be read back. */
  function BuildSearchQuery(companyName: string): (q: string)
    ensures QueryPrefix <= q && q[|QueryPrefix|..] == companyName
  {
    QueryPrefix + companyName
  }

  lemma QueryDeterminesName(a: string, b: string)
    requires BuildSearchQuery(a) == BuildSearchQuery(b)
    ensures a == b
  {
    assert a == BuildSearchQuery(a)[|QueryPrefix|..];
  }

  /** `_search`: dispatch on the configured engine. */
  function SearchFor(s: FinderSettings, bing: SearchRequest -> BingResponse, query: string): (outcome: SearchOutcome)
    ensures Lower(s.searchEngine) == DefaultEngine ==> outcome == Forward(bing(SearchRequest(query, s.timeout, s.userAgent)))
    ensures Lower(s.searchEngine) != DefaultEngine ==> outcome == Failed(UnsupportedEngine(s.searchEngine))
  {
    if Lower(s.searchEngine) == DefaultEngine then Forward(bing(SearchRequest(query, s.timeout, s.userAgent)))
    else Failed(UnsupportedEngine(s.searchEngine))
  }

  /** The engine's answer as `_search` passes it on. */
  function Forward(response: BingResponse): SearchOutcome {
    match response
    case Hits(items) => Results(items)
    case RequestFailed => Failed(NetworkError)
  }

  // ---------------------------------------------------------------------------
  // URL selection

  /** The hit has a URL that is not empty (`if not url: continue`). */
  predicate HasUrl(r: SearchResult) {
    r.url.Some? && r.url.value != ""
  }

  /** The first pass takes profile-shaped URLs, the second any URL containing `linkedin.com`. */
  predicate Accepts(r: SearchResult, profileOnly: bool) {
    HasUrl(r) &&
    if profileOnly then UtilsSearch.IsProbableLinkedInCompanyUrl(r.url.value)
    else Contains(r.url.value, UtilsSearch.Host)
  }

  lemma ProfileShapedIsOnLinkedIn(r: SearchResult)
    requires Accepts(r, true)
    ensures Accepts(r, false)
  {
  }

  /** Hit `i` is the first one the pass accepts. */
  predicate FirstAcceptedAt(rs: seq<SearchResult>, profileOnly: bool, i: int) {
    0 <= i < |rs| && Accepts(rs[i], profileOnly)
    && forall k :: 0 <= k < i ==> !Accepts(rs[k], profileOnly)
  }

  /** One pass of `_select_linkedin_url`: the URL of the first accepted hit. */
  function FirstUrl(rs: seq<SearchResult>, profileOnly: bool): (u: Option<string>)
    ensures u.None? <==> forall i :: 0 <= i < |rs| ==> !Accepts(rs[i], profileOnly)
    ensures u.Some? ==> exists i :: FirstAcceptedAt(rs, profileOnly, i) && rs[i].url == u
    decreases |rs|
  {
    if rs == [] then None
    else if Accepts(rs[0], profileOnly) then
      assert FirstAcceptedAt(rs, profileOnly, 0);
      rs[0].url
    else
      var u := FirstUrl(rs[1..], profileOnly);
      assert forall i :: 1 <= i < |rs| ==> rs[i] == rs[1..][i - 1];
      assert u.Some? ==> exists i :: FirstAcceptedAt(rs, profileOnly, i) && rs[i].url == u by {
        if u.Some? {
          var i :| FirstAcceptedAt(rs[1..], profileOnly, i) && rs[1..][i].url == u;
          assert FirstAcceptedAt(rs, profileOnly, i + 1);
        }
      }
      u
  }

  /** The pass returns the URL of whichever hit it accepts first. */
  lemma FirstUrlAt(rs: seq<SearchResult>, profileOnly: bool, i: int)
    requires FirstAcceptedAt(rs, profileOnly, i)
    ensures FirstUrl(rs, profileOnly) == rs[i].url
  {
    var u := FirstUrl(rs, profileOnly);
    assert u.Some?;
    var j :| FirstAcceptedAt(rs, profileOnly, j) && rs[j].url == u;
    assert 0 <= j < |rs|;
    assert i == j;
  }

  /**
   * `_select_linkedin_url`: the first profile-shaped URL if there is one,
   * otherwise the first URL on `linkedin.com`, otherwise none. What it
   * returns is always one of the hits' URLs, non-empty and on `linkedin.com`.
   */
  function SelectUrl(rs: seq<SearchResult>): (u: Option<string>)
    ensures u.Some? ==> u.value != "" && Contains(u.value, UtilsSearch.Host)
    ensures u.Some? ==> exists i :: 0 <= i < |rs| && rs[i].url == u
    ensures u.None? <==> forall i :: 0 <= i < |rs| ==> !Accepts(rs[i], false)
  {
    match FirstUrl(rs, true)
    case Some(v) => Some(v)
    case None => FirstUrl(rs, false)
  }

  /** A profile-shaped URL wins over every other hit, even plain LinkedIn URLs ranked above it. */
  lemma {:induction false} SelectPrefersProfile(rs: seq<SearchResult>, i: int)
    requires FirstAcceptedAt(rs, true, i)
    ensures SelectUrl(rs) == rs[i].url
  {
    FirstUrlAt(rs, true, i);
  }

  /** Without a profile-shaped URL the first URL on `linkedin.com` is taken. */
  lemma {:induction false} SelectFallsBack(rs: seq<SearchResult>, i: int)
    requires forall k :: 0 <= k < |rs| ==> !Accepts(rs[k], true)
    requires FirstAcceptedAt(rs, false, i)
    ensures SelectUrl(rs) == rs[i].url
  {
    FirstUrlAt(rs, false, i);
  }

  // ---------------------------------------------------------------------------
  // Resolving one company

  /**
   * `find_company_profile` as a function of the finder's settings and the
   * engine: it always yields a record for the given name and the built
   * query; a failed search gives `Error`, otherwise the status follows the
   * selected URL.
   */
  function Resolve(s: FinderSettings, bing: SearchRequest -> BingResponse, companyName: string): (p: Profile)
    ensures p.companyName == companyName && p.searchQuery == BuildSearchQuery(companyName)
    ensures Consistent(p)
    ensures SearchFor(s, bing, p.searchQuery).Failed? ==> p.infoStatus == Error && p.linkedinUrl == None
    ensures SearchFor(s, bing, p.searchQuery).Results? ==>
              p.linkedinUrl == SelectUrl(SearchFor(s, bing, p.searchQuery).items) && p.infoStatus != Error
  {
    var query := BuildSearchQuery(companyName);
    match SearchFor(s, bing, query)
    case Failed(_) => Profile(companyName, query, None, Error)
    case Results(rs) =>
      var url := SelectUrl(rs);
      Profile(companyName, query, url, if url.Some? && url.value != "" then Found else NotFound)
  }

  /** On normalised settings the status is `Error` exactly when the engine itself failed. */
  lemma {:induction false} ResolveErrorIffEngineFails(
    searchEngine: string, timeout: int, userAgent: string,
    bing: SearchRequest -> BingResponse, companyName: string)
    ensures var s := Normalise(searchEngine, timeout, userAgent);
            Resolve(s, bing, companyName).infoStatus == Error
            <==> bing(SearchRequest(BuildSearchQuery(companyName), s.timeout, s.userAgent)).RequestFailed?
  {
    var s := Normalise(searchEngine, timeout, userAgent);
    assert SearchFor(s, bing, BuildSearchQuery(companyName))
        == Forward(bing(SearchRequest(BuildSearchQuery(companyName), s.timeout, s.userAgent)));
  }

  // ---------------------------------------------------------------------------
  // The objects

  /** The mutable configuration record (a dataclass). */
  class LinkedInFinderConfig {
    var searchEngine: string
    var timeout: int
    var userAgent: string

    constructor (searchEngine: string := DefaultEngine, timeout: int := 10, userAgent: string := DefaultUserAgent)
      ensures this.searchEngine == searchEngine && this.timeout == timeout && this.userAgent == userAgent
    {
      this.searchEngine := searchEngine;
      this.timeout := timeout;
      this.userAgent := userAgent;
    }
  }

  class LinkedInFinder {
    const config: LinkedInFinderConfig
    /** Stands for `search_bing`. */
    const bing: SearchRequest -> BingResponse

    function Settings(): FinderSettings
      reads config
    {
      FinderSettings(config.searchEngine, config.timeout, config.userAgent)
    }

    /** The constructor leaves an engine that `_search` accepts. */
    ghost predicate Valid()
      reads config
    {
      Lower(config.searchEngine) == DefaultEngine
    }

    constructor (bing: SearchRequest -> BingResponse, searchEngine: string := DefaultEngine,
                 timeout: int := 10, userAgent: string := "")
      ensures fresh(config) && this.bing == bing
      ensures Settings() == Normalise(searchEngine, timeout, userAgent)
      ensures Valid()
    {
      this.bing := bing;
      config := new LinkedInFinderConfig(searchEngine, timeout,
                                         if userAgent == "" then DefaultUserAgent else userAgent);
      new;
      if Lower(config.searchEngine) != DefaultEngine {
        config.searchEngine := DefaultEngine;
      }
      DefaultEngineIsLower();
    }

    /** `_search`; on a constructed finder its `RuntimeError` branch is never taken. */
    method Search(query: string) returns (outcome: SearchOutcome)
      ensures outcome == SearchFor(Settings(), bing, query)
      ensures Valid() ==> outcome == Forward(bing(SearchRequest(query, config.timeout, config.userAgent)))
      ensures outcome.Failed? && outcome.error.UnsupportedEngine? ==> !Valid()
    {
      if Lower(config.searchEngine) == DefaultEngine {
        var response := bing(SearchRequest(query, config.timeout, config.userAgent));
        outcome := Forward(response);
      } else {
        outcome := Failed(UnsupportedEngine(config.searchEngine));
      }
    }

    /** `_select_linkedin_url`: two passes over the hits, each returning at its first match. */
    method SelectLinkedInUrl(results: seq<SearchResult>) returns (url: Option<string>)
      ensures url == SelectUrl(results)
    {
      for i := 0 to |results|
        invariant forall k :: 0 <= k < i ==> !Accepts(results[k], true)
      {
        var u := results[i].url;
        if u.None? || u.value == "" {
          continue;
        }
        if UtilsSearch.IsProbableLinkedInCompanyUrl(u.value) {
          FirstUrlAt(results, true, i);
          return u;
        }
      }
      for i := 0 to |results|
        invariant forall k :: 0 <= k < i ==> !Accepts(results[k], false)
      {
        var u := results[i].url;
        if u.Some? && u.value != "" && Contains(u.value, UtilsSearch.Host) {
          FirstUrlAt(results, false, i);
          return u;
        }
      }
      return None;
    }

    /** `find_company_profile`: never fails; a failed search becomes an `Error` record. */
    method FindCompanyProfile(companyName: string) returns (p: Profile)
      ensures p == Resolve(Settings(), bing, companyName)
      ensures p.companyName == companyName && p.searchQuery == BuildSearchQuery(companyName)
      ensures Consistent(p)
      ensures Valid() ==>
                (p.infoStatus == Error <==> bing(SearchRequest(p.searchQuery, config.timeout, config.userAgent)).RequestFailed?)
    {
      var query := BuildSearchQuery(companyName);
      var outcome := Search(query);
      if outcome.Failed? {
        p := Profile(companyName, query, None, Error);
      } else {
        var url := SelectLinkedInUrl(outcome.items);
        var status := if url.Some? && url.value != "" then Found else NotFound;
        p := Profile(companyName, query, url, status);
      }
    }
  }
}
