/** The team record and its parts. Optional fields default to `None` and
    list fields to the empty list; `lastUpdated` is the creation time, which
    the caller supplies because reading the clock is outside the model. */
module Models {
  import opened Wrappers

  /** An instant, kept opaque (the source stores a `datetime`). */
  type Timestamp = string

  datatype Player = Player(
    name: string,
    number: Option<string> := None,
    position: Option<string> := None,
    year: Option<string> := None,
    hometown: Option<string> := None,
    height: Option<string> := None)

  datatype Coach = Coach(
    name: string,
    title: string,
    yearsAtSchool: Option<int> := None,
    careerRecord: Option<string> := None)

  datatype Team = Team(
    schoolName: string,
    division: string,
    conference: Option<string> := None,
    mascot: Option<string> := None,
    location: Option<string> := None,
    headCoach: Option<Coach> := None,
    assistantCoaches: seq<Coach> := [],
    players: seq<Player> := [],
    websiteUrl: Option<string> := None,
    lastUpdated: Timestamp)

  /** A player built from a name alone has no other detail. */
  lemma PlayerDefaults(name: string)
    ensures var p := Player(name);
      p.name == name && p.number == None && p.position == None &&
      p.year == None && p.hometown == None && p.height == None
  {
  }

  /** A coach needs a name and a title; tenure and record are absent. */
  lemma CoachDefaults(name: string, title: string)
    ensures var c := Coach(name, title);
      c.name == name && c.title == title && c.yearsAtSchool == None && c.careerRecord == None
  {
  }

  /** A team needs a school name and a division; everything else is absent or
      empty, and the update time is always set. */
  lemma TeamDefaults(schoolName: string, division: string, now: Timestamp)
    ensures var t := Team(schoolName, division, lastUpdated := now);
      t.schoolName == schoolName && t.division == division &&
      t.conference == None && t.mascot == None && t.location == None &&
      t.headCoach == None && t.assistantCoaches == [] && t.players == [] &&
      t.websiteUrl == None && t.lastUpdated == now
  {
  }
}
