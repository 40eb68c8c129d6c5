/** The NCAA scraper: discovery of roster links on the schools page and the
    extraction of a team from a roster page. Both receive the outcome of
    fetching their page (see `Base.Fetch`). */
module Ncaa {
  import opened Wrappers
  import opened Text
  import opened Fold
  import opened Models
  import opened Html

  const UnknownSchool := "Unknown School"
  const DivisionName := "NCAA_D1"
  const HeadCoachTitle := "Head Coach"

  /** A link is a roster link when its lower-cased href mentions both
      "volleyball" and "roster". */
  predicate IsRosterLink(href: string)
  {
    Contains(Lower(href), "volleyball") && Contains(Lower(href), "roster")
  }

  /** The roster links among `hrefs`, in page order. */
  function RosterLinks(hrefs: seq<string>): (r: seq<string>)
    ensures |r| <= |hrefs|
    ensures forall h :: h in r ==> h in hrefs && IsRosterLink(h)
    ensures forall i :: 0 <= i < |hrefs| && IsRosterLink(hrefs[i]) ==> hrefs[i] in r
  {
    if |hrefs| == 0 then []
    else (if IsRosterLink(hrefs[0]) then [hrefs[0]] else []) + RosterLinks(hrefs[1..])
  }

  /** Filtering keeps page order: the links of an earlier part of the page
      come before those of a later part. */
  lemma {:induction false} RosterLinksAppend(a: seq<string>, b: seq<string>)
    ensures RosterLinks(a + b) == RosterLinks(a) + RosterLinks(b)
  {
    if |a| > 0 {
      assert (a + b)[1..] == a[1..] + b;
      RosterLinksAppend(a[1..], b);
    } else {
      assert a + b == b;
    }
  }

  /** `get_team_list`: no links when the schools page could not be fetched,
      otherwise its roster links. */
  function TeamList(fetched: Result<Option<Page>>): (r: Result<seq<string>>)
    ensures r.Err? <==> fetched.Err?
    ensures fetched == Ok(None) ==> r == Ok([])
    ensures fetched.Ok? && fetched.value.Some? ==> r == Ok(RosterLinks(fetched.value.value.links))
    ensures fetched.Ok? && fetched.value.Some? ==>
      r.Ok? && forall h :: h in r.value <==> h in fetched.value.value.links && IsRosterLink(h)
  {
    match fetched
    case Err(e) => Err(e)
    case Ok(None) => Ok([])
    case Ok(Some(page)) => Ok(RosterLinks(page.links))
  }

  function SchoolName(title: Option<string>): string
  {
    match title
    case Some(t) => t
    case None => UnknownSchool
  }

  /** The head coach named by `div.coach`; the title is always "Head Coach". */
  function HeadCoach(text: Option<string>): (c: Option<Coach>)
    ensures c.Some? <==> text.Some?
    ensures c.Some? ==> c.value.name == text.value && c.value.title == HeadCoachTitle
  {
    match text
    case None => None
    case Some(t) => Some(Coach(t, HeadCoachTitle))
  }

  /** The player of one table row: stripped name, number and position from
      its first three cells; rows with fewer cells give none. */
  function RowPlayer(cells: seq<string>): (p: Option<Player>)
    ensures p.Some? <==> |cells| >= 3
    ensures p.Some? ==>
      && p.value.name == Strip(cells[0])
      && p.value.number == Some(Strip(cells[1]))
      && p.value.position == Some(Strip(cells[2]))
      && p.value.year == None && p.value.hometown == None && p.value.height == None
  {
    if |cells| >= 3 then
      Some(Player(Strip(cells[0]), number := Some(Strip(cells[1])), position := Some(Strip(cells[2]))))
    else None
  }

  /** The rows after the header row; none when the table has no rows. */
  function BodyRows(rows: seq<seq<string>>): seq<seq<string>>
  {
    if |rows| == 0 then [] else rows[1..]
  }

  function RowPlayers(rows: seq<seq<string>>): seq<Option<Player>>
  {
    seq(|rows|, i requires 0 <= i < |rows| => RowPlayer(rows[i]))
  }

  /** The players of the roster table: none without a table, otherwise one
      per body row with at least three cells, in row order. */
  function RosterPlayers(table: Option<seq<seq<string>>>): seq<Player>
  {
    match table
    case None => []
    case Some(rows) => Somes(RowPlayers(BodyRows(rows)))
  }

  /** A player comes from the table iff some body row with at least three
      cells yields it, and there are at most as many players as body rows. */
  lemma RosterPlayersSpec(rows: seq<seq<string>>, p: Player)
    ensures p in RosterPlayers(Some(rows)) <==>
      exists i :: 0 <= i < |BodyRows(rows)| && |BodyRows(rows)[i]| >= 3 && RowPlayer(BodyRows(rows)[i]) == Some(p)
    ensures |RosterPlayers(Some(rows))| <= |BodyRows(rows)|
  {
    var body := BodyRows(rows);
    var outcomes := RowPlayers(body);
    SomesMembership(outcomes, p);
    if p in RosterPlayers(Some(rows)) {
      var i :| 0 <= i < |outcomes| && outcomes[i] == Some(p);
      assert RowPlayer(body[i]) == Some(p);
    }
    if exists i :: 0 <= i < |body| && |body[i]| >= 3 && RowPlayer(body[i]) == Some(p) {
      var i :| 0 <= i < |body| && |body[i]| >= 3 && RowPlayer(body[i]) == Some(p);
      assert outcomes[i] == Some(p);
    }
  }

  /** `_extract_players`: walk the body rows and append a player for each row
      with at least three cells. */
  method ExtractPlayers(table: Option<seq<seq<string>>>) returns (players: seq<Player>)
    ensures players == RosterPlayers(table)
  {
    players := [];
    if table.None? {
      return;
    }
    var rows := BodyRows(table.value);
    ghost var outcomes := RowPlayers(rows);
    var i := 0;
    while i < |rows|
      invariant 0 <= i <= |rows|
      invariant players == Somes(outcomes[..i])
    {
      var cells := rows[i];
      if |cells| >= 3 {
        players := players + [Player(Strip(cells[0]), number := Some(Strip(cells[1])), position := Some(Strip(cells[2])))];
      }
      assert outcomes[..i + 1][..i] == outcomes[..i];
      i := i + 1;
    }
    assert outcomes[..i] == outcomes;
  }

  /** The team of a fetched roster page. The division is always "NCAA_D1",
      whichever NCAA source the page came from. */
  function TeamFromPage(page: Page, url: string, now: Timestamp): (t: Team)
    ensures t.division == DivisionName && t.websiteUrl == Some(url) && t.lastUpdated == now
    ensures t.schoolName == (if page.title.Some? then page.title.value else UnknownSchool)
    ensures t.headCoach.Some? ==> t.headCoach.value.title == HeadCoachTitle
    ensures t.conference == page.conference && t.headCoach == HeadCoach(page.coach)
    ensures t.players == RosterPlayers(page.rosterTable)
    ensures t.mascot == None && t.location == None && t.assistantCoaches == []
  {
    Team(
      schoolName := SchoolName(page.title),
      division := DivisionName,
      conference := page.conference,
      headCoach := HeadCoach(page.coach),
      players := RosterPlayers(page.rosterTable),
      websiteUrl := Some(url),
      lastUpdated := now)
  }

  /** `scrape_team`: fails when the page could not be fetched, otherwise gives
      the page's team. */
  function TeamOutcome(fetched: Result<Option<Page>>, url: string, now: Timestamp): (r: Result<Team>)
    ensures r.Ok? <==> fetched.Ok? && fetched.value.Some?
    ensures fetched.Err? ==> r == Err(fetched.error)
    ensures fetched == Ok(None) ==> r == Err(ValueError(FetchFailedMessage(url)))
    ensures fetched.Ok? && fetched.value.Some? ==> r == Ok(TeamFromPage(fetched.value.value, url, now))
    ensures r.Ok? ==> r.value.division == DivisionName && r.value.websiteUrl == Some(url)
  {
    match fetched
    case Err(e) => Err(e)
    case Ok(None) => Err(ValueError(FetchFailedMessage(url)))
    case Ok(Some(page)) => Ok(TeamFromPage(page, url, now))
  }

  method ScrapeTeam(fetched: Result<Option<Page>>, url: string, now: Timestamp) returns (r: Result<Team>)
    ensures r == TeamOutcome(fetched, url, now)
  {
    match fetched
    case Err(e) =>
      r := Err(e);
    case Ok(None) =>
      r := Err(ValueError(FetchFailedMessage(url)));
    case Ok(Some(page)) =>
      var players := ExtractPlayers(page.rosterTable);
      r := Ok(Team(
        schoolName := SchoolName(page.title),
        division := DivisionName,
        conference := page.conference,
        headCoach := HeadCoach(page.coach),
        players := players,
        websiteUrl := Some(url),
        lastUpdated := now));
  }
}
