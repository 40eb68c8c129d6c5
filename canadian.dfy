/** The Canadian scraper: a single known roster URL (Waterloo), and the
    extraction of Waterloo's team from its roster page. */
module Canadian {
  import opened Wrappers
  import opened Text
  import opened Fold
  import opened Models
  import opened Html

  const WaterlooUrl := "https://athletics.uwaterloo.ca/sports/womens-volleyball/roster"

  const PositionLabel := "Position:"
  const HeightLabel := "Height:"
  const YearLabel := "Year:"
  const HometownLabel := "Hometown:"

  /** Waterloo's fixed identity. */
  const WaterlooSchool := "University of Waterloo"
  const WaterlooDivision := "CANADIAN"
  const WaterlooConference := "OUA"
  const WaterlooMascot := "Warriors"
  const WaterlooLocation := "Waterloo, ON"

  const NoStaffListMessage := "'NoneType' object has no attribute 'find_all'"

  function UnsupportedMessage(url: string): string
  {
    "Unsupported Canadian university URL: " + url
  }

  /** `get_team_list`: always Waterloo's roster page, and nothing else. */
  function TeamList(): (urls: seq<string>)
    ensures |urls| == 1 && urls[0] == WaterlooUrl
  {
    [WaterlooUrl]
  }

  /** A URL is handled by the Waterloo parser when its lower-cased form
      mentions "waterloo". */
  predicate IsWaterlooUrl(url: string)
  {
    Contains(Lower(url), "waterloo")
  }

  /** What one player detail line says, after `strip()`: the first label it
      contains, in the order Position, Height, Year, Hometown, with the label
      removed and the rest stripped; otherwise a jersey number when it is all
      digits; otherwise nothing. */
  datatype Detail =
    | PositionOf(text: string)
    | HeightOf(text: string)
    | YearOf(text: string)
    | HometownOf(text: string)
    | NumberOf(text: string)
    | Unmatched

  predicate HasLabel(text: string)
  {
    Contains(text, PositionLabel) || Contains(text, HeightLabel) ||
    Contains(text, YearLabel) || Contains(text, HometownLabel)
  }

  /** The text after a label: every occurrence of the label removed, then stripped. */
  function LabelValue(text: string, tag: string): string
    requires |tag| > 0
  {
    Strip(RemoveAll(text, tag))
  }

  function Classify(raw: string): Detail
  {
    var text := Strip(raw);
    if Contains(text, PositionLabel) then PositionOf(LabelValue(text, PositionLabel))
    else if Contains(text, HeightLabel) then HeightOf(LabelValue(text, HeightLabel))
    else if Contains(text, YearLabel) then YearOf(LabelValue(text, YearLabel))
    else if Contains(text, HometownLabel) then HometownOf(LabelValue(text, HometownLabel))
    else if IsDigits(text) then NumberOf(text)
    else Unmatched
  }

  /** The labels are tried in the order Position, Height, Year, Hometown: a
      line is the first of them it contains, and its value is the line with
      that label removed, stripped. A line with no label is the jersey number
      as written when it is all digits, and is ignored otherwise. Every value
      read from a line has no surrounding whitespace. */
  lemma ClassifySpec(raw: string)
    ensures var t := Strip(raw); var d := Classify(raw);
      && (d.PositionOf? <==> Contains(t, PositionLabel))
      && (d.HeightOf? <==> !Contains(t, PositionLabel) && Contains(t, HeightLabel))
      && (d.YearOf? <==> !Contains(t, PositionLabel) && !Contains(t, HeightLabel) && Contains(t, YearLabel))
      && (d.HometownOf? <==>
            !Contains(t, PositionLabel) && !Contains(t, HeightLabel) &&
            !Contains(t, YearLabel) && Contains(t, HometownLabel))
      && (d.PositionOf? ==> d.text == Strip(RemoveAll(t, PositionLabel)))
      && (d.HeightOf? ==> d.text == Strip(RemoveAll(t, HeightLabel)))
      && (d.YearOf? ==> d.text == Strip(RemoveAll(t, YearLabel)))
      && (d.HometownOf? ==> d.text == Strip(RemoveAll(t, HometownLabel)))
      && (d.NumberOf? <==> !HasLabel(t) && IsDigits(t))
      && (d.NumberOf? ==> d.text == t)
      && (d.Unmatched? <==> !HasLabel(t) && !IsDigits(t))
      && (!d.Unmatched? ==> |d.text| == 0 || (!IsSpace(d.text[0]) && !IsSpace(d.text[|d.text| - 1])))
  {
    var text := Strip(raw);
    assert |text| == 0 || (!IsSpace(text[0]) && !IsSpace(text[|text| - 1]));
  }

  /** The player fields a detail line can set. */
  datatype Field = Position | Height | Year | Hometown | Number

  /** The value a classified detail gives to `f`, if it speaks of `f`. */
  function FieldOf(d: Detail, f: Field): Option<string>
  {
    match f
    case Position => if d.PositionOf? then Some(d.text) else None
    case Height => if d.HeightOf? then Some(d.text) else None
    case Year => if d.YearOf? then Some(d.text) else None
    case Hometown => if d.HometownOf? then Some(d.text) else None
    case Number => if d.NumberOf? then Some(d.text) else None
  }

  /** The value of `f` after reading `details` in order: a later line for the
      same field overwrites an earlier one, and a field no line speaks of
      keeps its default "". */
  function Latest(details: seq<string>, f: Field): string
  {
    if |details| == 0 then ""
    else match FieldOf(Classify(details[|details| - 1]), f)
      case Some(v) => v
      case None => Latest(details[..|details| - 1], f)
  }

  /** Reading one more detail line updates `f` only when the line speaks of it. */
  lemma LatestSnoc(details: seq<string>, i: nat, f: Field)
    requires i < |details|
    ensures Latest(details[..i + 1], f) ==
      if FieldOf(Classify(details[i]), f).Some? then FieldOf(Classify(details[i]), f).value
      else Latest(details[..i], f)
  {
    assert details[..i + 1][..i] == details[..i];
  }

  /** A field that no detail line speaks of is "". */
  lemma {:induction false} LatestNoMatch(details: seq<string>, f: Field)
    requires forall i :: 0 <= i < |details| ==> FieldOf(Classify(details[i]), f).None?
    ensures Latest(details, f) == ""
  {
    if |details| > 0 {
      var init := details[..|details| - 1];
      assert forall i :: 0 <= i < |init| ==> init[i] == details[i];
      LatestNoMatch(init, f);
    }
  }

  /** A field takes the value of the last detail line that speaks of it. */
  lemma {:induction false} LatestLastMatch(details: seq<string>, f: Field, j: nat)
    requires j < |details| && FieldOf(Classify(details[j]), f).Some?
    requires forall k :: j < k < |details| ==> FieldOf(Classify(details[k]), f).None?
    ensures Latest(details, f) == FieldOf(Classify(details[j]), f).value
  {
    if j < |details| - 1 {
      var init := details[..|details| - 1];
      assert forall k :: 0 <= k < |init| ==> init[k] == details[k];
      LatestLastMatch(init, f, j);
    }
  }

  /** The player of a roster card: none without a name heading (the source
      catches the resulting error and returns None); otherwise the stripped
      name, and every detail field set, to "" when no line gave it. */
  function WaterlooPlayer(card: PlayerCard): (p: Option<Player>)
    ensures p.Some? <==> card.heading.Some?
    ensures p.Some? ==>
      && p.value.name == Strip(card.heading.value)
      && p.value.number == Some(Latest(card.details, Number))
      && p.value.position == Some(Latest(card.details, Position))
      && p.value.year == Some(Latest(card.details, Year))
      && p.value.hometown == Some(Latest(card.details, Hometown))
      && p.value.height == Some(Latest(card.details, Height))
  {
    match card.heading
    case None => None
    case Some(h) =>
      var d := card.details;
      Some(Player(Strip(h),
        number := Some(Latest(d, Number)),
        position := Some(Latest(d, Position)),
        year := Some(Latest(d, Year)),
        hometown := Some(Latest(d, Hometown)),
        height := Some(Latest(d, Height))))
  }

  /** `_extract_waterloo_player`: read the detail lines in order, each one
      setting at most one local field. */
  method ExtractWaterlooPlayer(card: PlayerCard) returns (p: Option<Player>)
    ensures p == WaterlooPlayer(card)
  {
    if card.heading.None? {
      return None;
    }
    var name := Strip(card.heading.value);
    var details := card.details;
    var position, number, height, year, hometown := "", "", "", "", "";
    var i := 0;
    while i < |details|
      invariant 0 <= i <= |details|
      invariant position == Latest(details[..i], Position)
      invariant number == Latest(details[..i], Number)
      invariant height == Latest(details[..i], Height)
      invariant year == Latest(details[..i], Year)
      invariant hometown == Latest(details[..i], Hometown)
    {
      var text := Strip(details[i]);
      ghost var d := Classify(details[i]);
      LatestSnoc(details, i, Position);
      LatestSnoc(details, i, Number);
      LatestSnoc(details, i, Height);
      LatestSnoc(details, i, Year);
      LatestSnoc(details, i, Hometown);
      if Contains(text, PositionLabel) {
        position := Strip(RemoveAll(text, PositionLabel));
        assert d == PositionOf(position);
      } else if Contains(text, HeightLabel) {
        height := Strip(RemoveAll(text, HeightLabel));
        assert d == HeightOf(height);
      } else if Contains(text, YearLabel) {
        year := Strip(RemoveAll(text, YearLabel));
        assert d == YearOf(year);
      } else if Contains(text, HometownLabel) {
        hometown := Strip(RemoveAll(text, HometownLabel));
        assert d == HometownOf(hometown);
      } else if IsDigits(text) {
        number := text;
        assert d == NumberOf(number);
      } else {
        assert d == Unmatched;
      }
      i := i + 1;
    }
    assert details[..i] == details;
    p := Some(Player(name, number := Some(number), position := Some(position),
      year := Some(year), hometown := Some(hometown), height := Some(height)));
  }

  /** A coach is produced only when both the name and the title are present. */
  function WaterlooCoach(card: CoachCard): (c: Option<Coach>)
    ensures c.Some? <==> card.name.Some? && card.title.Some?
    ensures c.Some? ==>
      && c.value.name == Strip(card.name.value)
      && c.value.title == Strip(card.title.value)
      && c.value.yearsAtSchool == None && c.value.careerRecord == None
  {
    if card.name.Some? && card.title.Some? then
      Some(Coach(Strip(card.name.value), Strip(card.title.value)))
    else None
  }

  /** The head coach is the first coach of the staff, if any. */
  function HeadOf(coaches: seq<Coach>): Option<Coach>
  {
    if |coaches| > 0 then Some(coaches[0]) else None
  }

  /** The assistants are the remaining coaches; none when at most one. */
  function AssistantsOf(coaches: seq<Coach>): seq<Coach>
  {
    if |coaches| > 1 then coaches[1..] else []
  }

  /** The head/assistant split loses and invents no coach and keeps order. */
  lemma CoachSplit(coaches: seq<Coach>)
    ensures HeadOf(coaches).None? <==> coaches == []
    ensures HeadOf(coaches).Some? ==> [HeadOf(coaches).value] + AssistantsOf(coaches) == coaches
    ensures |coaches| <= 1 ==> AssistantsOf(coaches) == []
  {
    if |coaches| == 1 {
      assert coaches[1..] == [];
    }
  }

  function PlayerCards(page: Page): seq<PlayerCard>
  {
    match page.rosterSection
    case None => []
    case Some(cards) => cards
  }

  function CardPlayers(cards: seq<PlayerCard>): seq<Option<Player>>
  {
    seq(|cards|, i requires 0 <= i < |cards| => WaterlooPlayer(cards[i]))
  }

  function CardCoaches(cards: seq<CoachCard>): seq<Option<Coach>>
  {
    seq(|cards|, i requires 0 <= i < |cards| => WaterlooCoach(cards[i]))
  }

  /** The coaching staff of a page, in page order; a staff heading with no
      list after it is an error. */
  function Staff(section: CoachSection): Result<seq<Coach>>
  {
    match section
    case NoHeading => Ok([])
    case HeadingWithoutList => Err(AttributeError(NoStaffListMessage))
    case Staff(cards) => Ok(Somes(CardCoaches(cards)))
  }

  /** `_scrape_waterloo`: Waterloo's fixed identity, the page's players and
      its staff split into head coach and assistants. */
  function WaterlooTeam(page: Page, url: string, now: Timestamp): (r: Result<Team>)
    ensures r.Err? <==> page.coachSection == HeadingWithoutList
    ensures r.Ok? ==>
      && r.value.schoolName == WaterlooSchool
      && r.value.division == WaterlooDivision
      && r.value.conference == Some(WaterlooConference)
      && r.value.mascot == Some(WaterlooMascot)
      && r.value.location == Some(WaterlooLocation)
      && r.value.websiteUrl == Some(url)
      && r.value.lastUpdated == now
  {
    match Staff(page.coachSection)
    case Err(e) => Err(e)
    case Ok(coaches) =>
      Ok(Team(
        schoolName := WaterlooSchool,
        division := WaterlooDivision,
        conference := Some(WaterlooConference),
        mascot := Some(WaterlooMascot),
        location := Some(WaterlooLocation),
        headCoach := HeadOf(coaches),
        assistantCoaches := AssistantsOf(coaches),
        players := Somes(CardPlayers(PlayerCards(page))),
        websiteUrl := Some(url),
        lastUpdated := now))
  }

  /** The coaches of a Waterloo team, head first. */
  function StaffOf(t: Team): seq<Coach>
  {
    (if t.headCoach.Some? then [t.headCoach.value] else []) + t.assistantCoaches
  }

  /** A page is accepted unless its staff heading has no list after it. Its
      players are exactly the extracted players of its roster cards, in page
      order. Without a staff heading it has no coach; with a staff list, every
      coach card with a name and a title gives exactly one coach of the team,
      head first, in page order. */
  lemma WaterlooTeamContents(page: Page, url: string, now: Timestamp)
    requires page.coachSection != HeadingWithoutList
    ensures WaterlooTeam(page, url, now).Ok?
    ensures WaterlooTeam(page, url, now).value.players == Somes(CardPlayers(PlayerCards(page)))
    ensures page.coachSection == NoHeading ==> StaffOf(WaterlooTeam(page, url, now).value) == []
    ensures page.coachSection.Staff? ==>
      StaffOf(WaterlooTeam(page, url, now).value) == Somes(CardCoaches(page.coachSection.cards))
    ensures page.coachSection.Staff? ==>
      forall c :: c in StaffOf(WaterlooTeam(page, url, now).value) <==>
        exists i :: 0 <= i < |page.coachSection.cards| && WaterlooCoach(page.coachSection.cards[i]) == Some(c)
  {
    if page.coachSection.Staff? {
      var cards := page.coachSection.cards;
      var coaches := Somes(CardCoaches(cards));
      CoachSplit(coaches);
      forall c
        ensures c in coaches <==> exists i :: 0 <= i < |cards| && WaterlooCoach(cards[i]) == Some(c)
      {
        SomesMembership(CardCoaches(cards), c);
        if c in coaches {
          var i :| 0 <= i < |cards| && CardCoaches(cards)[i] == Some(c);
          assert WaterlooCoach(cards[i]) == Some(c);
        }
        if exists i :: 0 <= i < |cards| && WaterlooCoach(cards[i]) == Some(c) {
          var i :| 0 <= i < |cards| && WaterlooCoach(cards[i]) == Some(c);
          assert CardCoaches(cards)[i] == Some(c);
        }
      }
    }
  }

  /** The source's loops: append each extracted player, then each extracted
      coach, then split the staff. */
  method ScrapeWaterloo(page: Page, url: string, now: Timestamp) returns (r: Result<Team>)
    ensures r == WaterlooTeam(page, url, now)
  {
    var players: seq<Player> := [];
    var cards := PlayerCards(page);
    ghost var extracted := CardPlayers(cards);
    var i := 0;
    while i < |cards|
      invariant 0 <= i <= |cards|
      invariant players == Somes(extracted[..i])
    {
      var player := ExtractWaterlooPlayer(cards[i]);
      if player.Some? {
        players := players + [player.value];
      }
      assert extracted[..i + 1][..i] == extracted[..i];
      i := i + 1;
    }
    assert extracted[..i] == extracted;

    var coaches: seq<Coach> := [];
    match page.coachSection {
    case NoHeading =>
    case HeadingWithoutList =>
      return Err(AttributeError(NoStaffListMessage));
    case Staff(coachCards) =>
      ghost var found := CardCoaches(coachCards);
      var j := 0;
      while j < |coachCards|
        invariant 0 <= j <= |coachCards|
        invariant coaches == Somes(found[..j])
      {
        var coach := WaterlooCoach(coachCards[j]);
        if coach.Some? {
          coaches := coaches + [coach.value];
        }
        assert found[..j + 1][..j] == found[..j];
        j := j + 1;
      }
      assert found[..j] == found;
    }

    r := Ok(Team(
      schoolName := WaterlooSchool,
      division := WaterlooDivision,
      conference := Some(WaterlooConference),
      mascot := Some(WaterlooMascot),
      location := Some(WaterlooLocation),
      headCoach := if |coaches| > 0 then Some(coaches[0]) else None,
      assistantCoaches := if |coaches| > 1 then coaches[1..] else [],
      players := players,
      websiteUrl := Some(url),
      lastUpdated := now));
  }

  /** `scrape_team`: a failed fetch is an error; a fetched page is parsed by
      the Waterloo parser iff the URL mentions "waterloo", and any other URL
      is an error. */
  function TeamOutcome(fetched: Result<Option<Page>>, url: string, now: Timestamp): (r: Result<Team>)
    ensures fetched.Err? ==> r == Err(fetched.error)
    ensures fetched == Ok(None) ==> r == Err(ValueError(FetchFailedMessage(url)))
    ensures fetched.Ok? && fetched.value.Some? && !IsWaterlooUrl(url) ==>
      r == Err(ValueError(UnsupportedMessage(url)))
    ensures fetched.Ok? && fetched.value.Some? && IsWaterlooUrl(url) ==>
      r == WaterlooTeam(fetched.value.value, url, now)
    ensures r.Ok? ==> fetched.Ok? && fetched.value.Some? && IsWaterlooUrl(url) && r.value.division == WaterlooDivision
  {
    match fetched
    case Err(e) => Err(e)
    case Ok(None) => Err(ValueError(FetchFailedMessage(url)))
    case Ok(Some(page)) =>
      if IsWaterlooUrl(url) then WaterlooTeam(page, url, now)
      else Err(ValueError(UnsupportedMessage(url)))
  }

  method ScrapeTeam(fetched: Result<Option<Page>>, url: string, now: Timestamp) returns (r: Result<Team>)
    ensures r == TeamOutcome(fetched, url, now)
  {
    match fetched
    case Err(e) =>
      r := Err(e);
    case Ok(None) =>
      r := Err(ValueError(FetchFailedMessage(url)));
    case Ok(Some(page)) =>
      if IsWaterlooUrl(url) {
        r := ScrapeWaterloo(page, url, now);
      } else {
        r := Err(ValueError(UnsupportedMessage(url)));
      }
  }
}
