/** What the scrapers see of a fetched page once it has been parsed. HTML
    parsing is outside the model: a page is given as the parts the scrapers
    look up, each in document order. */
module Html {
  import opened Wrappers

  /** One `li.sidearm-roster-player`: the text of its `h3`, if any, and the
      raw texts of its `span.sidearm-roster-player-details`. */
  datatype PlayerCard = PlayerCard(heading: Option<string>, details: seq<string>)

  /** One `div.sidearm-roster-coach`: the texts of its `h3` and of its
      `div.sidearm-roster-coach-title`, each when present. */
  datatype CoachCard = CoachCard(name: Option<string>, title: Option<string>)

  /** The coaching-staff part of a roster page: no staff heading, a heading
      with no `div` after it, or the coach cards of the `div` after it. */
  datatype CoachSection = NoHeading | HeadingWithoutList | Staff(cards: seq<CoachCard>)

  datatype Page = Page(
    links: seq<string>,                          // href of every <a href=...>
    title: Option<string>,                       // text of <title>
    conference: Option<string>,                  // text of div.conference
    coach: Option<string>,                       // text of div.coach
    rosterTable: Option<seq<seq<string>>>,       // table.roster: <td> texts per <tr>
    rosterSection: Option<seq<PlayerCard>>,      // section.sidearm-roster-players
    coachSection: CoachSection)

  /** One HTTP GET: a reply with a status and the parsed body, or an
      exception raised while fetching. */
  datatype Response = Reply(status: int, page: Page) | Raised(message: string)

  /** The network: what a GET of each URL gives. */
  type Web = string -> Response

  /** What either scraper raises when a team page could not be fetched. */
  function FetchFailedMessage(url: string): string
  {
    "Failed to fetch team page: " + url
  }
}
