# Volleyball aggregator, modelled in Dafny

The volleyball aggregator collects women's volleyball team records from several
sources and processes them one by one. The sources are NCAA Division I, NCAA
Division III and Canadian universities. Each team is sent to a language model
for analysis, and its analysis is written to a spreadsheet. The whole batch is
then written to a JSON file.

The work runs as workflows and activities on a durable execution engine. This
project models the program's own logic:

- **Scrapers**:
  - the base scraper's HTTP session and page fetch;
  - `scrape_all`, which keeps the teams that scraped and skips the others;
  - NCAA roster-link discovery and roster-page extraction;
  - the Canadian scraper with its Waterloo parser.
- **Scraping activities**:
  - choosing a scraper by division;
  - running that scraper inside its session;
  - the name of the file the final results go to.
- **Analysis activities**:
  - the analysis record wrapped around a team;
  - the exact row layout written to the team's sheet, and the update request.
- **Aggregator workflow**:
  - sources are scraped in order, and a failing source is skipped;
  - each team goes through analysis and then storage, and a failing team is skipped;
  - the final store happens once, only when something was kept.

Collaborators become total functions given as parameters:

- the network is a function from URL to `Response`;
- each activity or child workflow is a function from its input to its final outcome, after the engine's retries;
- clocks are timestamps passed in.

A parsed HTML page is a `Page` value. It holds exactly the elements the
scrapers query: the links, the title, the conference and coach elements, the
roster table, the roster cards and the coaching-staff section.

Modules, one per file:

- `Wrappers`: `Option`, `Result`, and the Python error kinds.
- `Text`: the `str` operations used (`in`, `lower`, `replace`, `strip`, `isdigit`).
- `Fold`: collect the successes and skip the failures.
- `Models`: `Player`, `Coach`, `Team`.
- `Html`: the page abstraction.
- `Ncaa`, `Canadian`, `Base`: the scrapers.
- `Scraping`, `Analysis`: the activities.
- `Aggregator`: the workflows.

Three behaviours of the program are worth knowing when reading the model:

- The workflow awaits each source's child workflow in turn, and it never de-duplicates teams.
- When a scraper cannot discover its team URLs, `scrape_all` swallows the error and returns no team.
- The NCAA scraper always writes the division `"NCAA_D1"`, so NCAA Division III teams are labelled `NCAA_D1`. This is modelled as written (see `Ncaa.TeamFromPage`).

## Model

| member | source | states |
|---|---|---|
| Models.PlayerDefaults | volleyball_aggregator/models/team.py:5-11 | a player needs only a name; number, position, year, hometown and height default to absent |
| Models.CoachDefaults | volleyball_aggregator/models/team.py:13-17 | a coach needs a name and a title; years at school and career record default to absent |
| Models.TeamDefaults | volleyball_aggregator/models/team.py:19-29 | a team needs a school name and a division; the optional fields default to absent, the coach and player lists to empty, and the update time is always set |
| Fold.SuccessCount | volleyball_aggregator/scrapers/base.py:38-43 | of N outcomes, the kept values plus the failures number exactly N |
| Fold.SuccessesAppend | volleyball_aggregator/scrapers/base.py:38-43 | collecting the successes of two runs of outcomes one after the other is concatenation, so order is preserved |
| Fold.SuccessesAllFailed | volleyball_aggregator/scrapers/base.py:38-43 | when every outcome failed, nothing is kept |
| Fold.OkIndicesSpec | volleyball_aggregator/scrapers/base.py:38-43 | the k-th kept value is the value of the k-th successful outcome; the positions are strictly increasing, and every success is kept |
| Fold.SuccessesMembership | volleyball_aggregator/scrapers/base.py:38-43 | a value is kept iff some outcome succeeded with it |
| Fold.SomesMembership | volleyball_aggregator/scrapers/canadian.py:36-38 | a value is kept iff some extraction produced it, and no more values are kept than there were extractions |
| Fold.SomesAppend | volleyball_aggregator/scrapers/canadian.py:34-38 | keeping the produced values of two runs one after the other is concatenation |
| Base.Fetch | volleyball_aggregator/scrapers/base.py:48-63 | with no session, a RuntimeError with the context-manager message; a page iff the session is open and the response status is 200 (and it is that response's page); None for any other status, for a raised exception, and on a closed session |
| Base.ScrapeAllExact | volleyball_aggregator/scrapers/base.py:33-46 | with N discovered URLs of which K fail, exactly N - K teams are returned; the k-th team is the team of the k-th URL that scraped, in discovery order, and no successful URL is dropped |
| Base.NoSessionScrapesNothing | volleyball_aggregator/scrapers/base.py:44-51 | used outside its context manager, a scraper of either kind returns no team and raises nothing |
| Base.ClosedSessionScrapesNothing | volleyball_aggregator/scrapers/base.py:19-21 | after its session is closed, a scraper of either kind returns no team |
| Base.Scraper.constructor | volleyball_aggregator/scrapers/base.py:11-13 | a new scraper keeps its base URL and has no session |
| Base.Scraper.Enter | volleyball_aggregator/scrapers/base.py:15-17 | entering opens the session |
| Base.Scraper.Exit | volleyball_aggregator/scrapers/base.py:19-21 | exiting closes the session if one was ever set, and leaves an unset session unset |
| Base.Scraper.FetchPage | volleyball_aggregator/scrapers/base.py:48-63 | the fetch outcome is `Base.Fetch` of the scraper's current session |
| Base.Scraper.GetTeamList | volleyball_aggregator/scrapers/base.py:23-26 | discovery dispatches to the scraper's kind: NCAA roster links of the fetched base page, or the fixed Canadian list |
| Base.Scraper.ScrapeTeam | volleyball_aggregator/scrapers/base.py:28-31 | one team is fetched through the scraper's session and parsed by its kind |
| Base.Scraper.ScrapeAll | volleyball_aggregator/scrapers/base.py:33-46 | the teams are exactly the successes of scraping each discovered URL in order (see `Base.ScrapeAllExact`); nothing when discovery raised; never more teams than URLs |
| Text.TrimStartDropsSpace | volleyball_aggregator/scrapers/ncaa.py:80-82 | `strip()` drops only whitespace from the front, and what remains is the rest of the text |
| Text.TrimEndDropsSpace | volleyball_aggregator/scrapers/ncaa.py:80-82 | `strip()` drops only whitespace from the back, and what remains is the front of the text |
| Ncaa.RosterLinks | volleyball_aggregator/scrapers/ncaa.py:18-23 | a link is returned iff it is on the page and its lower-cased href contains both "volleyball" and "roster"; no more links than the page has |
| Ncaa.RosterLinksAppend | volleyball_aggregator/scrapers/ncaa.py:19-23 | the filter keeps page order |
| Ncaa.TeamList | volleyball_aggregator/scrapers/ncaa.py:10-23 | no links when the schools page is not fetched, the fetch error when fetching raised, otherwise exactly the page's roster links (`Ncaa.RosterLinks` of its links, in page order, duplicates kept) |
| Ncaa.HeadCoach | volleyball_aggregator/scrapers/ncaa.py:58-67 | a head coach iff the page has a coach element; its name is that element's text and its title is always "Head Coach" |
| Ncaa.RowPlayer | volleyball_aggregator/scrapers/ncaa.py:76-83 | a row gives a player iff it has at least three cells; the name, number and position are its first three cells stripped; the other fields are absent |
| Ncaa.RosterPlayersSpec | volleyball_aggregator/scrapers/ncaa.py:69-85 | a player is extracted iff some row after the header row has at least three cells and yields it; at most one player per body row |
| Ncaa.ExtractPlayers | volleyball_aggregator/scrapers/ncaa.py:69-85 | the loop appends exactly the players of the body rows with at least three cells, in row order; none without a roster table |
| Ncaa.TeamFromPage | volleyball_aggregator/scrapers/ncaa.py:31-56 | the division is always "NCAA_D1"; the school name is the page title, or "Unknown School" without one; the conference is the page's conference element; the head coach is `Ncaa.HeadCoach` of the coach element (titled "Head Coach"); the players are the roster table's players; the website is the team URL; mascot, location and assistants are absent |
| Ncaa.TeamOutcome | volleyball_aggregator/scrapers/ncaa.py:25-42 | a team iff the page was fetched, and then the team of that page; a ValueError naming the URL when it was not; the fetch error when fetching raised |
| Ncaa.ScrapeTeam | volleyball_aggregator/scrapers/ncaa.py:25-42 | the team built from the page and its extracted players is `Ncaa.TeamOutcome` |
| Canadian.TeamList | volleyball_aggregator/scrapers/canadian.py:10-15 | discovery always yields exactly Waterloo's roster URL |
| Canadian.ClassifySpec | volleyball_aggregator/scrapers/canadian.py:81-92 | after stripping, a detail line is the first of Position, Height, Year, Hometown whose label it contains, and its value is the line with every occurrence of that label removed, stripped; a line with no label is the jersey number as written iff it is all digits, and is ignored otherwise; every value read has no surrounding whitespace |
| Canadian.LatestSnoc | volleyball_aggregator/scrapers/canadian.py:81-92 | reading one more detail line changes a field only when that line speaks of it |
| Canadian.LatestNoMatch | volleyball_aggregator/scrapers/canadian.py:75-79 | a field that no detail line speaks of keeps its default "" |
| Canadian.LatestLastMatch | volleyball_aggregator/scrapers/canadian.py:81-92 | a field takes the value of the last detail line that speaks of it |
| Canadian.WaterlooPlayer | volleyball_aggregator/scrapers/canadian.py:67-104 | a player iff the card has a name heading; the name is stripped, and every detail field is set to the last value read for it, or "" |
| Canadian.ExtractWaterlooPlayer | volleyball_aggregator/scrapers/canadian.py:67-104 | the detail loop produces exactly `Canadian.WaterlooPlayer` |
| Canadian.WaterlooCoach | volleyball_aggregator/scrapers/canadian.py:106-120 | a coach iff the card has both a name and a title; both are stripped; tenure and record are absent |
| Canadian.CoachSplit | volleyball_aggregator/scrapers/canadian.py:61-62 | no head coach iff no coach; otherwise the head coach followed by the assistants is the whole staff in order; no assistants with at most one coach |
| Canadian.WaterlooTeam | volleyball_aggregator/scrapers/canadian.py:28-65 | an error iff the staff heading has no list after it; otherwise "University of Waterloo", "CANADIAN", "OUA", "Warriors", "Waterloo, ON" and the team URL |
| Canadian.WaterlooTeamContents | volleyball_aggregator/scrapers/canadian.py:31-62 | a page is accepted unless its staff heading has no list after it; its players are exactly the roster cards' extracted players in page order; without a staff heading it has no coach; with a staff list its coaches (head first) are exactly the coach cards that have a name and a title, in page order |
| Canadian.ScrapeWaterloo | volleyball_aggregator/scrapers/canadian.py:28-65 | the player and coach loops and the staff split produce exactly `Canadian.WaterlooTeam` |
| Canadian.TeamOutcome | volleyball_aggregator/scrapers/canadian.py:17-26 | a ValueError naming the URL when the page is not fetched; a fetched page whose URL, lower-cased, contains "waterloo" gives exactly the Waterloo parser's outcome (`Canadian.WaterlooTeam`); any other fetched URL gives a ValueError naming it; a team only for a fetched Waterloo URL, and its division is "CANADIAN" |
| Canadian.ScrapeTeam | volleyball_aggregator/scrapers/canadian.py:17-26 | dispatching to the Waterloo parser produces exactly `Canadian.TeamOutcome` |
| Scraping.ScraperFor | volleyball_aggregator/activities/scraping.py:43-55 | "NCAA_D1" and "NCAA_D3" map to the NCAA scraper and "CANADIAN" to the Canadian scraper; any other division, by exact match, has no scraper |
| Scraping.ScrapeSourceOutcome | volleyball_aggregator/activities/scraping.py:13-27 | a ValueError naming the division iff the division has no scraper; otherwise `Ok` of what that scraper's `scrape_all` returns inside an open session (`Base.ScrapeAllResult`) |
| Scraping.ScrapeSource | volleyball_aggregator/activities/scraping.py:13-27 | the division is checked before any scraper exists; the scraper is entered, run and exited, and the result is `Scraping.ScrapeSourceOutcome` |
| Scraping.CanadianSourceOutcome | volleyball_aggregator/activities/scraping.py:18-27 | a Canadian source always succeeds, with Waterloo's team when its page fetches and parses, and with no team otherwise |
| Scraping.OutputFileName | volleyball_aggregator/activities/scraping.py:32-33 | the results file name is "volleyball_teams_", the run's timestamp, then ".json" |
| Analysis.AnalyzeTeamData | volleyball_aggregator/activities/analysis.py:13-50 | succeeds iff the completion request succeeds, and then carries the team unchanged, the generated text and the analysis time; otherwise it fails with the request's error |
| Analysis.TeamInfoUnique | volleyball_aggregator/activities/analysis.py:70-109 | the sheet layout of a team determines its rows completely |
| Analysis.RangeName | volleyball_aggregator/activities/analysis.py:113 | the update range is the school's own sheet from cell A1 |
| Analysis.BuildTeamInfo | volleyball_aggregator/activities/analysis.py:70-109 | the rows are 11 header rows (timestamp, school, division, conference, location, analysis, roster headings), one row per player in order, 3 staff heading rows, the head coach's row if there is one, and one row per assistant in order: 14 + players + head coach + assistants rows |
| Analysis.StoreInSheets | volleyball_aggregator/activities/analysis.py:52-125 | one update is sent, for the school's range with the team's rows; its cell count is reported in "Updated ... cells in Google Sheets"; a failed update is raised |
| Aggregator.ChildId | volleyball_aggregator/workflows/aggregator.py:37 | a child workflow's id is "scrape-" followed by the lower-cased division |
| Aggregator.ConfiguredChildIds | volleyball_aggregator/workflows/aggregator.py:12-37 | the three configured sources get the ids "scrape-ncaa_d1", "scrape-ncaa_d3" and "scrape-canadian" |
| Aggregator.ScrapeSourceWorkflow | volleyball_aggregator/workflows/aggregator.py:95-114 | the child workflow returns the scraping activity's outcome unchanged |
| Aggregator.CollectedAppend | volleyball_aggregator/workflows/aggregator.py:31-47 | the collected teams follow source order: collecting two lists of sources in turn is concatenation |
| Aggregator.FailingSourceSkipped | volleyball_aggregator/workflows/aggregator.py:32-47 | a failing source contributes nothing, and the sources after it still contribute theirs |
| Aggregator.SucceedingSourcePlaced | volleyball_aggregator/workflows/aggregator.py:32-45 | a succeeding source contributes exactly its teams, after those of the earlier sources and before those of the later ones |
| Aggregator.ProcessedExact | volleyball_aggregator/workflows/aggregator.py:50-83 | an entry is kept iff some team's analysis succeeded with the entry's analysis and that analysis was then stored with the entry's report; the k-th entry comes from the k-th team that got through both stages; a failing team never stops later teams |
| Aggregator.StoreFollowsAnalyze | volleyball_aggregator/workflows/aggregator.py:52-75 | storage is called only right after a successful analysis of the same team, with exactly that analysis |
| Aggregator.EveryTeamAnalyzed | volleyball_aggregator/workflows/aggregator.py:51-63 | every collected team is analysed exactly once, in order, whatever happened to the teams before it |
| Aggregator.RunOutcome | volleyball_aggregator/workflows/aggregator.py:85-93 | the run returns its kept entries, and fails iff there were entries and the final store failed |
| Aggregator.FinalStoreOnce | volleyball_aggregator/workflows/aggregator.py:85-91 | the results are stored iff at least one entry was kept; the store is then called exactly once, as the last call, with every entry |
| Aggregator.EmptyRun | volleyball_aggregator/workflows/aggregator.py:31-93 | with no source, nothing is called and the run returns no entry |
| Aggregator.Run | volleyball_aggregator/workflows/aggregator.py:11-93 | the run's calls are exactly the child workflows in source order, then the analysis and storage calls of the collected teams, then at most one final store; its result is the entries kept from the collected teams, or the final store's error |

## Left out

- The durable-execution engine is not modelled: retry policies, back-off intervals, timeouts, the non-retryable ValueError rule, and child-workflow and activity scheduling. Each collaborator is given as its final outcome after retries.
- The `asyncio.sleep` delays are not modelled. They are the 5 seconds in the child workflow and the configured delay after each source.
- HTTP and HTML parsing are not modelled (`aiohttp`, BeautifulSoup). A response is a status with an already-parsed `Page`, or a raised exception.
- A closed session is assumed to make every GET raise inside the fetch's `try`, so its fetch gives None. That behaviour lives in the HTTP library and is not part of this model.
- The OpenAI request is given only as its outcome. The prompt (the team serialised as JSON) and the model settings are not modelled.
- The Google credentials, the service construction and the Sheets API are one `update` collaborator. A credential failure is therefore indistinguishable from a failed update.
- The updated-cell count comes back from the `update` collaborator already as text.
- `store_results` writing the JSON file is not modelled. Only its file name is modelled (`Scraping.OutputFileName`). The store is a collaborator whose failure is raised.
- Clocks are not read. The analysis time, each team's `last_updated` and the run's start time are timestamps passed in, and `strftime`/`isoformat` formatting is not modelled.
- Logging is not modelled. Errors that are logged and skipped just leave no trace in the result.
- `model_dump` and the dictionaries that carry teams between activities are identity: a team passes through unchanged.
- Configuration and the entry points are not part of this model: `config.py`, `run.py`, `run_canadian.py` and `worker.py`.
- `lower()` is modelled on ASCII letters only. `isdigit()` is modelled on ASCII digits only. The patterns matched ("volleyball", "roster", "waterloo", the detail labels) are ASCII.
- Text.Strip: the whitespace set is Python's, but there is no other Unicode handling.
- Collaborators are functions, so one collaborator given the same input twice in a run gets the same outcome. This matters, for example, for a roster link listed twice on the schools page.
- Ncaa.TeamFromPage: pydantic validation of the constructed team is not modelled. Every field has the right type here, so it cannot fail.
- As written, neither the analysis activity nor the sheets activity can succeed. `analyze_team_data` awaits `create` on the synchronous OpenAI client (analysis.py:17, 31), and `store_in_sheets` reads a `GOOGLE_CREDENTIALS` setting that `config.py` does not define (analysis.py:57). Both calls are inside the collaborators the model abstracts, so the branch where entries are kept is reachable in the model but not in the program as written.
- Canadian.WaterlooTeam: a staff heading with no list after it is modelled as the AttributeError the lookup raises. Other parser exceptions cannot arise in the page abstraction.
