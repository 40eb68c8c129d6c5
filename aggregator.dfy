/** The top-level workflow: scrape every configured source in declaration
    order through a child workflow, send every collected team through analysis
    and then storage, and persist the batch once if anything was kept.
    Each activity or child workflow is a collaborator given as a function
    from its input to its final outcome (after the execution engine's
    retries); the workflow awaits them one at a time. */
module Aggregator {
  import opened Wrappers
  import opened Text
  import opened Fold
  import opened Models
  import opened Analysis
  import opened Scraping

  /** The sources the workflow scrapes, in this order. */
  const ConfiguredSources: seq<Source> := [
    Source("NCAA Division I", "NCAA_D1", "https://www.ncaa.com/schools"),
    Source("NCAA Division III", "NCAA_D3", "https://www.ncaa.com/schools"),
    Source("Canadian Universities", "CANADIAN", "https://usports.ca/en/sports/volleyball/f")
  ]

  /** The id of a source's child workflow: "scrape-" and the lower-cased division. */
  function ChildId(division: string): (id: string)
    ensures |id| == 7 + |division|
    ensures id[..7] == "scrape-" && id[7..] == Lower(division)
  {
    "scrape-" + Lower(division)
  }

  /** The configured sources get distinct child workflow ids. */
  lemma ConfiguredChildIds()
    ensures ChildId(ConfiguredSources[0].division) == "scrape-ncaa_d1"
    ensures ChildId(ConfiguredSources[1].division) == "scrape-ncaa_d3"
    ensures ChildId(ConfiguredSources[2].division) == "scrape-canadian"
  {
  }

  /** `ScrapeSourceWorkflow.run`: the source's teams exactly as the
      `scrape_source` activity returned them. */
  function ScrapeSourceWorkflow(source: Source, scrapeSource: Source -> Result<seq<Team>>): (r: Result<seq<Team>>)
    ensures r == scrapeSource(source)
  {
    scrapeSource(source)
  }

  /** One element of the workflow's result: the team, its analysis and the
      storage activity's report. */
  datatype Entry = Entry(teamData: Team, analysis: Analyzed, storageResult: string)

  /** The calls the workflow makes, in the order it makes them. */
  datatype Call =
    | ChildWorkflow(id: string, source: Source)
    | AnalyzeCall(team: Team)
    | StoreInSheetsCall(analyzed: Analyzed)
    | StoreResultsCall(entries: seq<Entry>)

  /** A source's teams when its child workflow succeeded; nothing otherwise. */
  function Contribution(source: Source, scrapeSource: Source -> Result<seq<Team>>): seq<Team>
  {
    match ScrapeSourceWorkflow(source, scrapeSource)
    case Ok(teams) => teams
    case Err(_) => []
  }

  /** `results`: the successful sources' teams, concatenated in source order. */
  function Collected(sources: seq<Source>, scrapeSource: Source -> Result<seq<Team>>): seq<Team>
  {
    if |sources| == 0 then []
    else Collected(sources[..|sources| - 1], scrapeSource) + Contribution(sources[|sources| - 1], scrapeSource)
  }

  /** Collecting two lists of sources one after the other is collecting each
      and concatenating: source order is output order. */
  lemma {:induction false} CollectedAppend(a: seq<Source>, b: seq<Source>, scrapeSource: Source -> Result<seq<Team>>)
    ensures Collected(a + b, scrapeSource) == Collected(a, scrapeSource) + Collected(b, scrapeSource)
    decreases |b|
  {
    if |b| > 0 {
      assert (a + b)[..|a + b| - 1] == a + b[..|b| - 1];
      CollectedAppend(a, b[..|b| - 1], scrapeSource);
    } else {
      assert a + b == a;
    }
  }

  /** A failing source adds nothing, and the sources after it still run. */
  lemma FailingSourceSkipped(a: seq<Source>, s: Source, b: seq<Source>, scrapeSource: Source -> Result<seq<Team>>)
    requires scrapeSource(s).Err?
    ensures Collected(a + [s] + b, scrapeSource) == Collected(a, scrapeSource) + Collected(b, scrapeSource)
  {
    assert Collected([s], scrapeSource) == [] by {
      assert [s][..0] == [];
    }
    calc {
      Collected(a + [s] + b, scrapeSource);
      { CollectedAppend(a + [s], b, scrapeSource); }
      Collected(a + [s], scrapeSource) + Collected(b, scrapeSource);
      { CollectedAppend(a, [s], scrapeSource); }
      Collected(a, scrapeSource) + Collected([s], scrapeSource) + Collected(b, scrapeSource);
    }
  }

  /** A succeeding source adds exactly its teams, between those of the
      sources before it and those of the sources after it. */
  lemma SucceedingSourcePlaced(a: seq<Source>, s: Source, b: seq<Source>, scrapeSource: Source -> Result<seq<Team>>)
    requires scrapeSource(s).Ok?
    ensures Collected(a + [s] + b, scrapeSource) ==
      Collected(a, scrapeSource) + scrapeSource(s).value + Collected(b, scrapeSource)
  {
    CollectedAppend(a + [s], b, scrapeSource);
    CollectedAppend(a, [s], scrapeSource);
    assert Collected([s], scrapeSource) == scrapeSource(s).value by {
      assert [s][..0] == [];
    }
  }

  function SourceCalls(sources: seq<Source>): seq<Call>
  {
    seq(|sources|, i requires 0 <= i < |sources| => ChildWorkflow(ChildId(sources[i].division), sources[i]))
  }

  /** One team through analysis then storage: kept only if both succeed;
      storage receives analysis' output. */
  function TeamStep(team: Team, analyze: Team -> Result<Analyzed>, store: Analyzed -> Result<string>): Result<Entry>
  {
    match analyze(team)
    case Err(e) => Err(e)
    case Ok(analysis) =>
      match store(analysis)
      case Err(e) => Err(e)
      case Ok(stored) => Ok(Entry(team, analysis, stored))
  }

  function TeamSteps(teams: seq<Team>, analyze: Team -> Result<Analyzed>, store: Analyzed -> Result<string>): seq<Result<Entry>>
  {
    seq(|teams|, i requires 0 <= i < |teams| => TeamStep(teams[i], analyze, store))
  }

  /** `analyzed_results`: the entries of the teams that got through both
      stages, in team order. */
  function Processed(teams: seq<Team>, analyze: Team -> Result<Analyzed>, store: Analyzed -> Result<string>): seq<Entry>
  {
    Successes(TeamSteps(teams, analyze, store))
  }

  /** An entry is kept iff some team's analysis succeeded with the entry's
      analysis and its storage then succeeded with the entry's report; the
      entry holds that team. No more entries than teams are kept, the k-th
      entry comes from the k-th team that got through, and a failing team
      never stops the teams after it. */
  lemma ProcessedExact(teams: seq<Team>, analyze: Team -> Result<Analyzed>, store: Analyzed -> Result<string>)
    ensures |Processed(teams, analyze, store)| <= |teams|
    ensures forall e :: e in Processed(teams, analyze, store) <==>
      exists i :: 0 <= i < |teams| && e.teamData == teams[i] &&
        analyze(teams[i]) == Ok(e.analysis) && store(e.analysis) == Ok(e.storageResult)
    ensures var steps := TeamSteps(teams, analyze, store);
      var entries := Processed(teams, analyze, store);
      && |OkIndices(steps)| == |entries|
      && (forall k :: 0 <= k < |entries| ==> OkIndices(steps)[k] < |teams| && entries[k].teamData == teams[OkIndices(steps)[k]])
      && (forall j, k :: 0 <= j < k < |entries| ==> OkIndices(steps)[j] < OkIndices(steps)[k])
      && (forall i :: 0 <= i < |teams| && steps[i].Ok? ==> i in OkIndices(steps))
  {
    var steps := TeamSteps(teams, analyze, store);
    SuccessCount(steps);
    OkIndicesSpec(steps);
    forall e
      ensures e in Processed(teams, analyze, store) <==>
        exists i :: 0 <= i < |teams| && e.teamData == teams[i] &&
          analyze(teams[i]) == Ok(e.analysis) && store(e.analysis) == Ok(e.storageResult)
    {
      SuccessesMembership(steps, e);
      if exists i :: 0 <= i < |steps| && steps[i] == Ok(e) {
        var i :| 0 <= i < |steps| && steps[i] == Ok(e);
        assert TeamStep(teams[i], analyze, store) == Ok(e);
      }
      if exists i :: 0 <= i < |teams| && e.teamData == teams[i] &&
          analyze(teams[i]) == Ok(e.analysis) && store(e.analysis) == Ok(e.storageResult) {
        var i :| 0 <= i < |teams| && e.teamData == teams[i] &&
          analyze(teams[i]) == Ok(e.analysis) && store(e.analysis) == Ok(e.storageResult);
        assert steps[i] == Ok(e);
      }
    }
  }

  /** The calls made for one team: analysis, then storage only if analysis
      succeeded, with analysis' output. */
  function StepCalls(team: Team, analyze: Team -> Result<Analyzed>): seq<Call>
  {
    [AnalyzeCall(team)] + (if analyze(team).Ok? then [StoreInSheetsCall(analyze(team).value)] else [])
  }

  function TeamCalls(teams: seq<Team>, analyze: Team -> Result<Analyzed>): seq<Call>
  {
    if |teams| == 0 then []
    else TeamCalls(teams[..|teams| - 1], analyze) + StepCalls(teams[|teams| - 1], analyze)
  }

  /** Every storage call comes right after the analysis call of its team, and
      that analysis succeeded with exactly what storage receives. */
  predicate StoresFollowAnalyses(calls: seq<Call>, analyze: Team -> Result<Analyzed>)
  {
    forall k :: 0 <= k < |calls| && calls[k].StoreInSheetsCall? ==>
      k > 0 && calls[k - 1].AnalyzeCall? && analyze(calls[k - 1].team) == Ok(calls[k].analyzed)
  }

  /** In the calls made for the collected teams, storage is only ever called
      right after a successful analysis, with that analysis' output. */
  lemma {:induction false} StoreFollowsAnalyze(teams: seq<Team>, analyze: Team -> Result<Analyzed>)
    ensures StoresFollowAnalyses(TeamCalls(teams, analyze), analyze)
  {
    if |teams| > 0 {
      var init := teams[..|teams| - 1];
      var last := teams[|teams| - 1];
      StoreFollowsAnalyze(init, analyze);
      var pre := TeamCalls(init, analyze);
      var step := StepCalls(last, analyze);
      var calls := TeamCalls(teams, analyze);
      assert calls == pre + step;
      forall k | 0 <= k < |calls| && calls[k].StoreInSheetsCall?
        ensures k > 0 && calls[k - 1].AnalyzeCall? && analyze(calls[k - 1].team) == Ok(calls[k].analyzed)
      {
        if k < |pre| {
          assert calls[k] == pre[k] && calls[k - 1] == pre[k - 1];
        } else {
          assert calls[k] == step[k - |pre|];
          assert k - |pre| == 1 && calls[k - 1] == step[0];
        }
      }
    }
  }

  /** The teams analysed by a list of calls, in call order. */
  function AnalyzedTeams(calls: seq<Call>): seq<Team>
  {
    if |calls| == 0 then []
    else AnalyzedTeams(calls[..|calls| - 1]) + (if calls[|calls| - 1].AnalyzeCall? then [calls[|calls| - 1].team] else [])
  }

  lemma {:induction false} AnalyzedTeamsAppend(a: seq<Call>, b: seq<Call>)
    ensures AnalyzedTeams(a + b) == AnalyzedTeams(a) + AnalyzedTeams(b)
    decreases |b|
  {
    if |b| > 0 {
      assert (a + b)[..|a + b| - 1] == a + b[..|b| - 1];
      AnalyzedTeamsAppend(a, b[..|b| - 1]);
    } else {
      assert a + b == a;
    }
  }

  /** Every collected team is analysed, once and in order, whatever happened
      to the teams before it. */
  lemma {:induction false} EveryTeamAnalyzed(teams: seq<Team>, analyze: Team -> Result<Analyzed>)
    ensures AnalyzedTeams(TeamCalls(teams, analyze)) == teams
  {
    if |teams| > 0 {
      var init := teams[..|teams| - 1];
      var last := teams[|teams| - 1];
      EveryTeamAnalyzed(init, analyze);
      AnalyzedTeamsAppend(TeamCalls(init, analyze), StepCalls(last, analyze));
      var step := StepCalls(last, analyze);
      if analyze(last).Ok? {
        assert step[..1] == [AnalyzeCall(last)];
        assert step[..1][..0] == [];
        assert AnalyzedTeams(step[..1]) == [last];
      } else {
        assert step[..0] == [];
      }
      assert AnalyzedTeams(step) == [last];
      assert init + [last] == teams;
    }
  }

  /** The final store: once, with every entry, when any entry was kept. */
  function FinalCalls(entries: seq<Entry>): seq<Call>
  {
    if |entries| > 0 then [StoreResultsCall(entries)] else []
  }

  /** Every call of a run, in order. */
  function RunCalls(
    sources: seq<Source>,
    scrapeSource: Source -> Result<seq<Team>>,
    analyze: Team -> Result<Analyzed>,
    store: Analyzed -> Result<string>): seq<Call>
  {
    var results := Collected(sources, scrapeSource);
    SourceCalls(sources) + TeamCalls(results, analyze) + FinalCalls(Processed(results, analyze, store))
  }

  /** What a run returns: the kept entries, unless the final store raised. */
  function RunOutcome(entries: seq<Entry>, storeResults: seq<Entry> -> Result<()>): (r: Result<seq<Entry>>)
    ensures r.Ok? ==> r.value == entries
    ensures r.Err? <==> |entries| > 0 && storeResults(entries).Err?
  {
    if |entries| > 0 && storeResults(entries).Err? then Err(storeResults(entries).error) else Ok(entries)
  }

  lemma {:induction false} TeamCallsNoFinalStore(teams: seq<Team>, analyze: Team -> Result<Analyzed>)
    ensures forall k :: 0 <= k < |TeamCalls(teams, analyze)| ==> !TeamCalls(teams, analyze)[k].StoreResultsCall?
  {
    if |teams| > 0 {
      TeamCallsNoFinalStore(teams[..|teams| - 1], analyze);
    }
  }

  /** The final store is called exactly once, last, with the full list of
      entries, when that list is non-empty, and never otherwise. */
  lemma FinalStoreOnce(
    sources: seq<Source>,
    scrapeSource: Source -> Result<seq<Team>>,
    analyze: Team -> Result<Analyzed>,
    store: Analyzed -> Result<string>)
    ensures var calls := RunCalls(sources, scrapeSource, analyze, store);
      var entries := Processed(Collected(sources, scrapeSource), analyze, store);
      && ((exists k :: 0 <= k < |calls| && calls[k].StoreResultsCall?) <==> |entries| > 0)
      && (forall k :: 0 <= k < |calls| && calls[k].StoreResultsCall? ==>
            k == |calls| - 1 && calls[k].entries == entries)
  {
    var results := Collected(sources, scrapeSource);
    var entries := Processed(results, analyze, store);
    var front := SourceCalls(sources) + TeamCalls(results, analyze);
    TeamCallsNoFinalStore(results, analyze);
    assert forall k :: 0 <= k < |front| ==> !front[k].StoreResultsCall?;
    var calls := RunCalls(sources, scrapeSource, analyze, store);
    assert calls == front + FinalCalls(entries);
    if |entries| > 0 {
      assert calls[|calls| - 1].StoreResultsCall?;
    }
  }

  /** With no source nothing is called and the run returns no entry. */
  lemma EmptyRun(
    scrapeSource: Source -> Result<seq<Team>>,
    analyze: Team -> Result<Analyzed>,
    store: Analyzed -> Result<string>,
    storeResults: seq<Entry> -> Result<()>)
    ensures RunCalls([], scrapeSource, analyze, store) == []
    ensures RunOutcome(Processed(Collected([], scrapeSource), analyze, store), storeResults) == Ok([])
  {
  }

  /** `DataAggregatorWorkflow.run`, over the given sources (the workflow uses
      `ConfiguredSources`). Returns the outcome and the calls made. */
  method Run(
    sources: seq<Source>,
    scrapeSource: Source -> Result<seq<Team>>,
    analyze: Team -> Result<Analyzed>,
    store: Analyzed -> Result<string>,
    storeResults: seq<Entry> -> Result<()>)
    returns (r: Result<seq<Entry>>, calls: seq<Call>)
    ensures calls == RunCalls(sources, scrapeSource, analyze, store)
    ensures r == RunOutcome(Processed(Collected(sources, scrapeSource), analyze, store), storeResults)
  {
    var results: seq<Team> := [];
    calls := [];
    var i := 0;
    while i < |sources|
      invariant 0 <= i <= |sources|
      invariant results == Collected(sources[..i], scrapeSource)
      invariant calls == SourceCalls(sources[..i])
    {
      var source := sources[i];
      calls := calls + [ChildWorkflow(ChildId(source.division), source)];
      var outcome := ScrapeSourceWorkflow(source, scrapeSource);
      if outcome.Ok? {
        results := results + outcome.value;
      }
      assert sources[..i + 1][..i] == sources[..i];
      i := i + 1;
    }
    assert sources[..i] == sources;

    var entries: seq<Entry> := [];
    ghost var steps := TeamSteps(results, analyze, store);
    var j := 0;
    while j < |results|
      invariant 0 <= j <= |results|
      invariant entries == Successes(steps[..j])
      invariant calls == SourceCalls(sources) + TeamCalls(results[..j], analyze)
    {
      var team := results[j];
      calls := calls + [AnalyzeCall(team)];
      var analysis := analyze(team);
      if analysis.Ok? {
        calls := calls + [StoreInSheetsCall(analysis.value)];
        var stored := store(analysis.value);
        if stored.Ok? {
          entries := entries + [Entry(team, analysis.value, stored.value)];
        }
      }
      assert steps[..j + 1][..j] == steps[..j];
      assert results[..j + 1][..j] == results[..j];
      j := j + 1;
    }
    assert steps[..j] == steps;
    assert results[..j] == results;

    if |entries| > 0 {
      calls := calls + [StoreResultsCall(entries)];
      var done := storeResults(entries);
      if done.Err? {
        return Err(done.error), calls;
      }
    }
    r := Ok(entries);
  }
}
