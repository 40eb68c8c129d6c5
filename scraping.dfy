/** The scraping activities: choose the scraper for a source's division, run
    it inside its session, and name the file the final results go to. */
module Scraping {
  import opened Wrappers
  import opened Models
  import opened Html
  import opened Fold
  import opened Base
  import Canadian

  /** A configured source: a display name, a division tag and a base URL. */
  datatype Source = Source(name: string, division: string, baseUrl: string)

  /** The division table; keys are matched exactly, case included. */
  const Scrapers: map<string, ScraperKind> :=
    map["NCAA_D1" := NcaaScraper, "NCAA_D3" := NcaaScraper, "CANADIAN" := CanadianScraper]

  /** `_get_scraper_class`. */
  function ScraperFor(division: string): (k: Option<ScraperKind>)
    ensures k == Some(NcaaScraper) <==> division == "NCAA_D1" || division == "NCAA_D3"
    ensures k == Some(CanadianScraper) <==> division == "CANADIAN"
    ensures k.None? <==> division != "NCAA_D1" && division != "NCAA_D3" && division != "CANADIAN"
  {
    if division in Scrapers then Some(Scrapers[division]) else None
  }

  function NoScraperMessage(division: string): string
  {
    "No scraper implemented for division: " + division
  }

  /** What `scrape_source` returns: a ValueError for an unmapped division,
      otherwise what the division's scraper's `scrape_all` returns inside an
      open session. Records are passed on as they are (dumping a team record
      to a dictionary loses nothing). */
  function ScrapeSourceOutcome(source: Source, web: Web, now: Timestamp): (r: Result<seq<Team>>)
    ensures r.Err? <==> ScraperFor(source.division).None?
    ensures r.Err? ==> r.error == ValueError(NoScraperMessage(source.division))
    ensures ScraperFor(source.division).Some? ==>
      r == Ok(ScrapeAllResult(ScraperFor(source.division).value, source.baseUrl, Open, web, now))
  {
    match ScraperFor(source.division)
    case None => Err(ValueError(NoScraperMessage(source.division)))
    case Some(kind) => Ok(ScrapeAllResult(kind, source.baseUrl, Open, web, now))
  }

  /** `scrape_source`: the division is checked before any scraper exists;
      then the scraper is entered, run and exited. */
  method ScrapeSource(source: Source, web: Web, now: Timestamp) returns (r: Result<seq<Team>>)
    ensures r == ScrapeSourceOutcome(source, web, now)
  {
    var kind := ScraperFor(source.division);
    if kind.None? {
      return Err(ValueError(NoScraperMessage(source.division)));
    }
    var scraper := new Scraper(kind.value, source.baseUrl);
    scraper.Enter();
    var teams := scraper.ScrapeAll(web, now);
    scraper.Exit();
    assert scraper.session == Closed;
    r := Ok(teams);
  }

  /** A source whose scraper runs returns exactly the teams that scraped:
      for a Canadian source, Waterloo's team when its page is fetched and
      parsed, and nothing otherwise. */
  lemma CanadianSourceOutcome(source: Source, web: Web, now: Timestamp)
    requires source.division == "CANADIAN"
    ensures var r := ScrapeSourceOutcome(source, web, now);
      var one := Canadian.TeamOutcome(Fetch(Open, Canadian.WaterlooUrl, web), Canadian.WaterlooUrl, now);
      && r.Ok?
      && r.value == (if one.Ok? then [one.value] else [])
  {
    assert ScraperFor(source.division) == Some(CanadianScraper);
    var urls := Canadian.TeamList();
    var outcomes := TeamOutcomes(CanadianScraper, Open, urls, web, now);
    assert outcomes == [Canadian.TeamOutcome(Fetch(Open, Canadian.WaterlooUrl, web), Canadian.WaterlooUrl, now)];
    assert outcomes[..|outcomes| - 1] == [];
    var one := outcomes[0];
    assert Successes(outcomes) == (if one.Ok? then [one.value] else []);
    assert ScrapeAllResult(CanadianScraper, source.baseUrl, Open, web, now) == Successes(outcomes);
  }

  /** `store_results`' file name for a run started at `stamp`
      (formatted `%Y%m%d_%H%M%S`). */
  function OutputFileName(stamp: string): (name: string)
    ensures |name| == |stamp| + 22
    ensures name[..17] == "volleyball_teams_" && name[|name| - 5..] == ".json"
    ensures name[17..|name| - 5] == stamp
  {
    "volleyball_teams_" + stamp + ".json"
  }
}
