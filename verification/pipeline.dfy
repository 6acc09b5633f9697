/** The script's four steps in their fixed order: default dates, arguments, the API
    request, the CSV write, then the optional summary. The HTTP response is a
    parameter; what the run does to the outside world is recorded as `Effect`s. */
module Pipeline {
  import opened Results
  import opened Calendar
  import opened DefaultWindow
  import opened Arguments

  /** One record of the response's `DATA` array: field name to value. */
  type Record = map<string, string>

  /** The HTTP response: its status code and, when the body parses, its `DATA` records. */
  datatype Response = Response(status: int, records: seq<Record>)

  /** What the run does outside itself, in the order it does it. */
  datatype Effect =
    | Get(url: string)
    | WriteFile(filename: string, rows: nat)
    | Summary(filename: string, count: nat, startDate: string, endDate: string)

  datatype Outcome = Completed(numRecords: nat) | Aborted(reason: Abort)

  datatype Run = Run(effects: seq<Effect>, outcome: Outcome)

  /** The process exit status: 0 after a completed run, 1 after any abort. */
  function ExitStatus(o: Outcome): (code: int)
    ensures code == 0 <==> o.Completed?
    ensures o.Aborted? ==> code == 1
  {
    if o.Completed? then 0 else 1
  }

  /** The request step: only status 200 hands the records on. */
  function ApiCall(response: Response): (r: Result<seq<Record>, Abort>)
    ensures r.Ok? <==> response.status == 200
    ensures r.Ok? ==> r.value == response.records
    ensures r.Err? ==> r.error == RequestFailed(response.status)
  {
    if response.status == 200 then Ok(response.records) else Err(RequestFailed(response.status))
  }

  /** The file step: an empty record list stops the run with no file written;
      otherwise one row per record is written and that count is returned. */
  function WriteCsv(records: seq<Record>, filename: string): (r: Result<(Effect, nat), Abort>)
    ensures r.Err? <==> |records| == 0
    ensures r.Err? ==> r.error == NoRecords
    ensures r.Ok? ==> r.value.1 == |records| && r.value.1 > 0
    ensures r.Ok? ==> r.value.0 == WriteFile(filename, |records|)
  {
    if |records| != 0 then Ok((WriteFile(filename, |records|), |records|)) else Err(NoRecords)
  }

  /** The script compares `verbose == 1`: true for the parser's integer default,
      false for any text given with `-v`, even `"1"`. */
  predicate ShowsSummary(v: Verbose) {
    v.DefaultOne?
  }

  /** Position of each step in the script's order. */
  function StageOf(e: Effect): (stage: nat)
    ensures 2 <= stage <= 4
  {
    match e
    case Get(_) => 2
    case WriteFile(_, _) => 3
    case Summary(_, _, _, _) => 4
  }

  /** The step at which each abort happens: filename check 1, request 2, file 3. */
  function AbortStage(a: Abort): (stage: nat)
    ensures 1 <= stage <= 3
  {
    match a
    case InvalidFilename(_) => 1
    case RequestFailed(_) => 2
    case NoRecords => 3
  }

  /** Steps happen in increasing stage order, each at most once. */
  predicate InStageOrder(effects: seq<Effect>) {
    forall i, j :: 0 <= i < j < |effects| ==> StageOf(effects[i]) < StageOf(effects[j])
  }

  /** The whole script for the given clock reading, command line and server response.
      A rejected name stops the run with nothing done; a non-200 status stops it after
      the request alone; an empty record list stops it with no file; otherwise the file
      gets one row per record. */
  function RunScript(today: Today, args: Overrides, response: Response): (run: Run)
    requires ValidToday(today)
    ensures !IsCsvName(EffectiveOutputFile(args)) ==>
      run == Run([], Aborted(InvalidFilename(EffectiveOutputFile(args))))
    ensures IsCsvName(EffectiveOutputFile(args)) && response.status != 200 ==>
      run.outcome == Aborted(RequestFailed(response.status)) && |run.effects| == 1 && run.effects[0].Get?
    ensures IsCsvName(EffectiveOutputFile(args)) && response.status == 200 && |response.records| == 0 ==>
      run.outcome == Aborted(NoRecords) && |run.effects| == 1 && run.effects[0].Get?
    ensures IsCsvName(EffectiveOutputFile(args)) && response.status == 200 && |response.records| > 0 ==>
      && run.outcome == Completed(|response.records|)
      && |run.effects| >= 2
      && run.effects[1] == WriteFile(EffectiveOutputFile(args), |response.records|)
  {
    var window := GetDates(today);
    match ValidateArguments(window.start, window.end, args)
    case Err(e) => Run([], Aborted(e))
    case Ok(cfg) =>
      match ApiCall(response)
      case Err(e) => Run([Get(cfg.url)], Aborted(e))
      case Ok(records) =>
        match WriteCsv(records, cfg.outputFile)
        case Err(e) => Run([Get(cfg.url)], Aborted(e))
        case Ok((write, n)) =>
          var summary := if ShowsSummary(cfg.verbose)
            then [Summary(cfg.outputFile, n, cfg.startDate, cfg.endDate)]
            else [];
          Run([Get(cfg.url), write] + summary, Completed(n))
  }

  /** Effects occur in stage order, and the request goes to the URL of the resolved dates. */
  lemma StagesInOrder(today: Today, args: Overrides, response: Response)
    requires ValidToday(today)
    ensures var run := RunScript(today, args, response);
      && InStageOrder(run.effects)
      && (|run.effects| > 0 ==> run.effects[0] == Get(BuildUrl(
            args.startDate.GetOr(GetDates(today).start), args.endDate.GetOr(GetDates(today).end))))
  {
  }

  /** An abort leaves every later stage unrun: no effect belongs to a stage past the one
      that aborted, and no file is written. */
  lemma AbortStopsLaterStages(today: Today, args: Overrides, response: Response)
    requires ValidToday(today)
    ensures var run := RunScript(today, args, response);
      run.outcome.Aborted? ==>
        forall i :: 0 <= i < |run.effects| ==>
          StageOf(run.effects[i]) <= AbortStage(run.outcome.reason) && !run.effects[i].WriteFile?
  {
  }

  /** The script finishes with status 0 exactly when the name passes, the status is 200
      and at least one record came back. */
  lemma ExitZeroExactly(today: Today, args: Overrides, response: Response)
    requires ValidToday(today)
    ensures ExitStatus(RunScript(today, args, response).outcome) == 0 <==>
      IsCsvName(EffectiveOutputFile(args)) && response.status == 200 && |response.records| > 0
  {
  }

  /** The summary is shown exactly when the run completes and `-v` was not given;
      when shown it is the last effect and names the file, the count and both dates. */
  lemma SummaryOnlyByDefault(today: Today, args: Overrides, response: Response)
    requires ValidToday(today)
    ensures var run := RunScript(today, args, response);
      (exists i :: 0 <= i < |run.effects| && run.effects[i].Summary?) <==>
        run.outcome.Completed? && args.verbose.None?
    ensures var run := RunScript(today, args, response);
      run.outcome.Completed? && args.verbose.None? ==>
        run.effects[|run.effects| - 1] == Summary(EffectiveOutputFile(args), run.outcome.numRecords,
          args.startDate.GetOr(GetDates(today).start), args.endDate.GetOr(GetDates(today).end))
  {
    var run := RunScript(today, args, response);
    if run.outcome.Completed? && args.verbose.None? {
      assert run.effects[|run.effects| - 1].Summary?;
    } else {
      assert forall i :: 0 <= i < |run.effects| ==> !run.effects[i].Summary?;
    }
  }

  /** A run with start and end given, no other option, and one record in the response. */
  lemma EndToEnd(today: Today)
    requires ValidToday(today)
    ensures var run := RunScript(today,
        Overrides(Some("2021-01-01"), Some("2021-01-31"), None, None),
        Response(200, [map["name" := "X"]]));
      && run.outcome == Completed(1)
      && ExitStatus(run.outcome) == 0
      && run.effects == [
           Get(BuildUrl("2021-01-01", "2021-01-31")),
           WriteFile("contactData.csv", 1),
           Summary("contactData.csv", 1, "2021-01-01", "2021-01-31")]
  {
    CsvNameByLetters(DefaultOutputFile);
  }
}
