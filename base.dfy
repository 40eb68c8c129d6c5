/** The scraper base: its HTTP session, the page fetch, and `scrape_all`,
    the per-source fold that keeps the teams that scraped and skips the rest.
    The two concrete scrapers are the two `ScraperKind`s; their discovery and
    team scraping live in modules `Ncaa` and `Canadian`. */
module Base {
  import opened Wrappers
  import opened Fold
  import opened Models
  import opened Html
  import Ncaa
  import Canadian

  datatype ScraperKind = NcaaScraper | CanadianScraper

  /** The scraper's HTTP session: never opened, open, or closed (a closed
      session stays set, as the source does not clear it). */
  datatype SessionState = NoSession | Open | Closed

  const NoSessionMessage := "Scraper must be used as an async context manager"
  const StatusOk := 200

  /** `_fetch_page`: without a session it raises before fetching; otherwise
      it gives the parsed page for status 200 and None for any other status,
      for any exception while fetching, and on a closed session (whose GET
      raises inside the same try). */
  function Fetch(session: SessionState, url: string, web: Web): (r: Result<Option<Page>>)
    ensures r.Err? <==> session == NoSession
    ensures r.Err? ==> r.error == RuntimeError(NoSessionMessage)
    ensures r.Ok? && r.value.Some? <==> session == Open && web(url).Reply? && web(url).status == StatusOk
    ensures r.Ok? && r.value.Some? ==> r.value.value == web(url).page
  {
    match session
    case NoSession => Err(RuntimeError(NoSessionMessage))
    case Closed => Ok(None)
    case Open =>
      match web(url)
      case Raised(_) => Ok(None)
      case Reply(status, page) => if status == StatusOk then Ok(Some(page)) else Ok(None)
  }

  /** `get_team_list` of each scraper. */
  function TeamListOutcome(kind: ScraperKind, baseUrl: string, session: SessionState, web: Web): Result<seq<string>>
  {
    match kind
    case NcaaScraper => Ncaa.TeamList(Fetch(session, baseUrl, web))
    case CanadianScraper => Ok(Canadian.TeamList())
  }

  /** `scrape_team` of each scraper. */
  function TeamOutcome(kind: ScraperKind, session: SessionState, url: string, web: Web, now: Timestamp): Result<Team>
  {
    match kind
    case NcaaScraper => Ncaa.TeamOutcome(Fetch(session, url, web), url, now)
    case CanadianScraper => Canadian.TeamOutcome(Fetch(session, url, web), url, now)
  }

  /** The per-URL outcomes of scraping `urls`, in discovery order. */
  function TeamOutcomes(kind: ScraperKind, session: SessionState, urls: seq<string>, web: Web, now: Timestamp): seq<Result<Team>>
  {
    seq(|urls|, i requires 0 <= i < |urls| => TeamOutcome(kind, session, urls[i], web, now))
  }

  /** What `scrape_all` returns: nothing when discovery raised, otherwise the
      teams of the URLs that scraped, in discovery order. */
  function ScrapeAllResult(kind: ScraperKind, baseUrl: string, session: SessionState, web: Web, now: Timestamp): seq<Team>
  {
    match TeamListOutcome(kind, baseUrl, session, web)
    case Err(_) => []
    case Ok(urls) => Successes(TeamOutcomes(kind, session, urls, web, now))
  }

  /** With N discovered URLs of which K fail, `scrape_all` keeps exactly N - K
      teams: the k-th kept team is the team of the k-th URL that scraped. */
  lemma ScrapeAllExact(kind: ScraperKind, baseUrl: string, session: SessionState, web: Web, now: Timestamp)
    requires TeamListOutcome(kind, baseUrl, session, web).Ok?
    ensures var urls := TeamListOutcome(kind, baseUrl, session, web).value;
      var outcomes := TeamOutcomes(kind, session, urls, web, now);
      var teams := ScrapeAllResult(kind, baseUrl, session, web, now);
      && |teams| + FailureCount(outcomes) == |urls|
      && |OkIndices(outcomes)| == |teams|
      && (forall k :: 0 <= k < |teams| ==>
            OkIndices(outcomes)[k] < |urls| &&
            TeamOutcome(kind, session, urls[OkIndices(outcomes)[k]], web, now) == Ok(teams[k]))
      && (forall j, k :: 0 <= j < k < |teams| ==> OkIndices(outcomes)[j] < OkIndices(outcomes)[k])
      && (forall i :: 0 <= i < |urls| && TeamOutcome(kind, session, urls[i], web, now).Ok? ==> i in OkIndices(outcomes))
  {
    var urls := TeamListOutcome(kind, baseUrl, session, web).value;
    var outcomes := TeamOutcomes(kind, session, urls, web, now);
    SuccessCount(outcomes);
    OkIndicesSpec(outcomes);
  }

  /** Outside its context manager a scraper raises on every fetch, and
      `scrape_all` swallows those errors and returns no team. */
  lemma NoSessionScrapesNothing(kind: ScraperKind, baseUrl: string, web: Web, now: Timestamp)
    ensures ScrapeAllResult(kind, baseUrl, NoSession, web, now) == []
  {
    if kind == CanadianScraper {
      SuccessesAllFailed(TeamOutcomes(kind, NoSession, Canadian.TeamList(), web, now));
    }
  }

  /** After its session is closed a scraper fetches nothing, so `scrape_all`
      returns no team either. */
  lemma ClosedSessionScrapesNothing(kind: ScraperKind, baseUrl: string, web: Web, now: Timestamp)
    ensures ScrapeAllResult(kind, baseUrl, Closed, web, now) == []
  {
    if kind == CanadianScraper {
      SuccessesAllFailed(TeamOutcomes(kind, Closed, Canadian.TeamList(), web, now));
    }
  }

  class Scraper {
    const kind: ScraperKind
    const baseUrl: string
    var session: SessionState

    constructor (kind: ScraperKind, baseUrl: string)
      ensures this.kind == kind && this.baseUrl == baseUrl && session == NoSession
    {
      this.kind := kind;
      this.baseUrl := baseUrl;
      session := NoSession;
    }

    /** `__aenter__`: open a new session. */
    method Enter()
      modifies this
      ensures session == Open
    {
      session := Open;
    }

    /** `__aexit__`: close the session only if one was ever set. */
    method Exit()
      modifies this
      ensures session == if old(session) == NoSession then NoSession else Closed
    {
      if session != NoSession {
        session := Closed;
      }
    }

    method FetchPage(url: string, web: Web) returns (r: Result<Option<Page>>)
      ensures r == Fetch(session, url, web)
    {
      if session == NoSession {
        return Err(RuntimeError(NoSessionMessage));
      }
      if session == Closed {
        return Ok(None);
      }
      var response := web(url);
      if response.Reply? && response.status == StatusOk {
        r := Ok(Some(response.page));
      } else {
        r := Ok(None);
      }
    }

    method GetTeamList(web: Web) returns (r: Result<seq<string>>)
      ensures r == TeamListOutcome(kind, baseUrl, session, web)
    {
      match kind
      case NcaaScraper =>
        var fetched := FetchPage(baseUrl, web);
        r := Ncaa.TeamList(fetched);
      case CanadianScraper =>
        r := Ok(Canadian.TeamList());
    }

    method ScrapeTeam(url: string, web: Web, now: Timestamp) returns (r: Result<Team>)
      ensures r == TeamOutcome(kind, session, url, web, now)
    {
      var fetched := FetchPage(url, web);
      match kind
      case NcaaScraper =>
        r := Ncaa.ScrapeTeam(fetched, url, now);
      case CanadianScraper =>
        r := Canadian.ScrapeTeam(fetched, url, now);
    }

    /** `scrape_all`: discover the URLs, scrape each in order, append the
      teams that scraped and skip the failures; a discovery failure gives no
      team. Nothing is raised. */
    method ScrapeAll(web: Web, now: Timestamp) returns (teams: seq<Team>)
      ensures teams == ScrapeAllResult(kind, baseUrl, session, web, now)
      ensures TeamListOutcome(kind, baseUrl, session, web).Err? ==> teams == []
      ensures TeamListOutcome(kind, baseUrl, session, web).Ok? ==>
        |teams| <= |TeamListOutcome(kind, baseUrl, session, web).value|
    {
      teams := [];
      var listed := GetTeamList(web);
      if listed.Err? {
        return;
      }
      var urls := listed.value;
      ghost var outcomes := TeamOutcomes(kind, session, urls, web, now);
      var i := 0;
      while i < |urls|
        invariant 0 <= i <= |urls|
        invariant teams == Successes(outcomes[..i])
      {
        var team := ScrapeTeam(urls[i], web, now);
        if team.Ok? {
          teams := teams + [team.value];
        }
        assert outcomes[..i + 1][..i] == outcomes[..i];
        i := i + 1;
      }
      assert outcomes[..i] == outcomes;
      SuccessCount(outcomes);
    }
  }
}
