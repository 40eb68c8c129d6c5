/** The analysis activities: wrapping a generated analysis around a team, and
    laying a team out as spreadsheet rows for storage. The language-model and
    spreadsheet calls are collaborators given as parameters. */
module Analysis {
  import opened Wrappers
  import opened Models

  /** What `analyze_team_data` returns: the team exactly as given, the
      generated text (which the model may leave empty: `None`) and the time
      of the analysis. */
  datatype Analyzed = Analyzed(teamData: Team, aiAnalysis: Option<string>, analysisTimestamp: Timestamp)

  /** `analyze_team_data`, given the outcome of the completion request. */
  function AnalyzeTeamData(team: Team, completion: Result<Option<string>>, now: Timestamp): (r: Result<Analyzed>)
    ensures r.Ok? <==> completion.Ok?
    ensures r.Err? ==> r.error == completion.error
    ensures r.Ok? ==> r.value.teamData == team && r.value.aiAnalysis == completion.value && r.value.analysisTimestamp == now
  {
    match completion
    case Err(e) => Err(e)
    case Ok(text) => Ok(Analyzed(team, text, now))
  }

  /** A spreadsheet cell: a text, or an empty value for a missing field. */
  datatype Cell = Text(s: string) | Null

  type Row = seq<Cell>

  function OptCell(o: Option<string>): Cell
  {
    match o
    case Some(s) => Text(s)
    case None => Null
  }

  /** Name, number, position, year, hometown, height. */
  function PlayerRow(p: Player): Row
  {
    [Text(p.name), OptCell(p.number), OptCell(p.position), OptCell(p.year), OptCell(p.hometown), OptCell(p.height)]
  }

  function CoachRow(c: Coach): Row
  {
    [Text(c.name), Text(c.title)]
  }

  const HeaderLength := 11
  const StaffHeaderLength := 3

  /** The fixed block before the roster: timestamp, school, division,
      conference, location, the analysis, and the roster column headings. */
  function HeaderRows(a: Analyzed): seq<Row>
  {
    var t := a.teamData;
    [ [Text("Team Information"), Text(a.analysisTimestamp)],
      [Text("School"), Text(t.schoolName)],
      [Text("Division"), Text(t.division)],
      [Text("Conference"), OptCell(t.conference)],
      [Text("Location"), OptCell(t.location)],
      [Text("")],
      [Text("AI Analysis")],
      [OptCell(a.aiAnalysis)],
      [Text("")],
      [Text("Roster")],
      [Text("Name"), Text("Number"), Text("Position"), Text("Year"), Text("Hometown"), Text("Height")] ]
  }

  /** The fixed rows between the roster and the coaches. */
  const StaffHeader: seq<Row> := [[Text("")], [Text("Coaching Staff")], [Text("Name"), Text("Title")]]

  /** The sheet layout of an analyzed team: the header block, one row per
      player in roster order, the staff heading, the head coach's row when
      there is a head coach, then one row per assistant in order. */
  predicate IsTeamInfo(a: Analyzed, rows: seq<Row>)
  {
    var players := a.teamData.players;
    var assistants := a.teamData.assistantCoaches;
    var p := |players|;
    var h := if a.teamData.headCoach.Some? then 1 else 0;
    && |rows| == HeaderLength + p + StaffHeaderLength + h + |assistants|
    && rows[..HeaderLength] == HeaderRows(a)
    && (forall i :: 0 <= i < p ==> rows[HeaderLength + i] == PlayerRow(players[i]))
    && rows[HeaderLength + p..HeaderLength + p + StaffHeaderLength] == StaffHeader
    && (h == 1 ==> rows[HeaderLength + p + StaffHeaderLength] == CoachRow(a.teamData.headCoach.value))
    && (forall j :: 0 <= j < |assistants| ==>
          rows[HeaderLength + p + StaffHeaderLength + h + j] == CoachRow(assistants[j]))
  }

  /** The layout determines the rows: two row lists with the layout of the
      same team are equal. */
  lemma TeamInfoUnique(a: Analyzed, rows1: seq<Row>, rows2: seq<Row>)
    requires IsTeamInfo(a, rows1) && IsTeamInfo(a, rows2)
    ensures rows1 == rows2
  {
    var p := |a.teamData.players|;
    var h := if a.teamData.headCoach.Some? then 1 else 0;
    var s := HeaderLength + p + StaffHeaderLength;
    forall k | 0 <= k < |rows1|
      ensures rows1[k] == rows2[k]
    {
      if k < HeaderLength {
        assert rows1[k] == rows1[..HeaderLength][k];
        assert rows2[k] == rows2[..HeaderLength][k];
      } else if k < HeaderLength + p {
        var i := k - HeaderLength;
        assert rows1[HeaderLength + i] == PlayerRow(a.teamData.players[i]) == rows2[HeaderLength + i];
      } else if k < s {
        assert rows1[k] == rows1[HeaderLength + p..s][k - HeaderLength - p];
        assert rows2[k] == rows2[HeaderLength + p..s][k - HeaderLength - p];
      } else if k < s + h {
      } else {
        var j := k - s - h;
        assert rows1[s + h + j] == CoachRow(a.teamData.assistantCoaches[j]) == rows2[s + h + j];
      }
    }
  }

  /** The range a team's rows are written to: its own sheet, from A1. */
  function RangeName(schoolName: string): (range: string)
    ensures |range| == |schoolName| + 3
    ensures range[..|schoolName|] == schoolName && range[|schoolName|..] == "!A1"
  {
    schoolName + "!A1"
  }

  /** The rows of `store_in_sheets`, built as the source does: the header
      block, then one appended row per player, the staff heading, the head
      coach's row if any, and one appended row per assistant. */
  method BuildTeamInfo(a: Analyzed) returns (rows: seq<Row>)
    ensures IsTeamInfo(a, rows)
    ensures |rows| == 14 + |a.teamData.players| + (if a.teamData.headCoach.Some? then 1 else 0) + |a.teamData.assistantCoaches|
  {
    var t := a.teamData;
    rows := HeaderRows(a);
    var i := 0;
    while i < |t.players|
      invariant 0 <= i <= |t.players|
      invariant |rows| == HeaderLength + i
      invariant rows[..HeaderLength] == HeaderRows(a)
      invariant forall k :: 0 <= k < i ==> rows[HeaderLength + k] == PlayerRow(t.players[k])
    {
      rows := rows + [PlayerRow(t.players[i])];
      i := i + 1;
    }
    var rostered := rows;
    rows := rows + StaffHeader;
    if t.headCoach.Some? {
      rows := rows + [CoachRow(t.headCoach.value)];
    }
    var staffed := rows;
    var j := 0;
    while j < |t.assistantCoaches|
      invariant 0 <= j <= |t.assistantCoaches|
      invariant |rows| == |staffed| + j
      invariant rows[..|staffed|] == staffed
      invariant forall k :: 0 <= k < j ==> rows[|staffed| + k] == CoachRow(t.assistantCoaches[k])
    {
      rows := rows + [CoachRow(t.assistantCoaches[j])];
      j := j + 1;
    }
    var p := |t.players|;
    assert forall k :: 0 <= k < |staffed| ==> rows[k] == staffed[k] by {
      assert forall k :: 0 <= k < |staffed| ==> rows[..|staffed|][k] == rows[k];
    }
    assert forall k :: 0 <= k < |rostered| ==> staffed[k] == rostered[k];
    assert rows[..HeaderLength] == rostered[..HeaderLength];
    assert forall k :: 0 <= k < p ==> rows[HeaderLength + k] == PlayerRow(t.players[k]);
    assert rows[HeaderLength + p..HeaderLength + p + StaffHeaderLength] == StaffHeader;
  }

  /** The request `store_in_sheets` sends: the range and the rows. */
  datatype SheetsUpdate = SheetsUpdate(range: string, values: seq<Row>)

  function UpdatedMessage(cells: string): string
  {
    "Updated " + cells + " cells in Google Sheets"
  }

  /** `store_in_sheets`: lay the team out, send one update for its sheet, and
      report the updated cell count the service returns (given as text);
      a failed update is raised. */
  method StoreInSheets(a: Analyzed, update: SheetsUpdate -> Result<string>) returns (r: Result<string>, request: SheetsUpdate)
    ensures request.range == RangeName(a.teamData.schoolName)
    ensures IsTeamInfo(a, request.values)
    ensures update(request).Ok? ==> r == Ok(UpdatedMessage(update(request).value))
    ensures update(request).Err? ==> r == Err(update(request).error)
  {
    var rows := BuildTeamInfo(a);
    request := SheetsUpdate(RangeName(a.teamData.schoolName), rows);
    match update(request)
    case Ok(cells) =>
      r := Ok(UpdatedMessage(cells));
    case Err(e) =>
      r := Err(e);
  }
}
