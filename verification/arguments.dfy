/** Argument resolution: defaults for omitted options, the output-filename check,
    and the request URL. The argparse parsing itself is replaced by `Overrides`,
    one optional string per option as the parser would deliver it. */
module Arguments {
  import opened Results
  import opened Text

  /** What the command line supplied; `None` for an omitted option. */
  datatype Overrides = Overrides(
    startDate: Option<string>,
    endDate: Option<string>,
    outputFile: Option<string>,
    verbose: Option<string>)

  /** The verbose setting as the script holds it: the parser's default is the integer 1,
      while a value given with `-v` arrives as text. */
  datatype Verbose = DefaultOne | Supplied(text: string)

  /** The values handed on to the later stages. */
  datatype Config = Config(
    url: string,
    startDate: string,
    endDate: string,
    outputFile: string,
    verbose: Verbose)

  /** Why a run stops; each of these ends the process with exit status 1. */
  datatype Abort = InvalidFilename(filename: string) | RequestFailed(status: int) | NoRecords

  const DefaultOutputFile: string := "contactData.csv"

  /** The API location up to the access token. */
  const ApiBase: string := "https://leads.theonenet.work/api/api.cfm/"

  /** The access token, an opaque constant. */
  const Token: string := "XXXXXXXX-XXXXX-XXXXXXX-XXXXXXXX"

  const RangePath: string := "/avhdata/range?startdate="

  const EndDateParam: string := "&enddate="

  /** Everything in the URL before the start date. */
  const QueryPrefix: string := ApiBase + Token + RangePath

  /** The name the run checks and writes to: the supplied one or the default. */
  function EffectiveOutputFile(args: Overrides): string {
    args.outputFile.GetOr(DefaultOutputFile)
  }

  /** The filename check: the lower-cased name ends in `csv` (no dot needed). */
  predicate IsCsvName(filename: string) {
    EndsWith(Lower(filename), "csv")
  }

  /** An independent statement of the same check: the last three characters are
      `c`, `s`, `v` in either case. Both directions hold. */
  lemma CsvNameByLetters(filename: string)
    ensures IsCsvName(filename) <==>
      (var n := |filename|;
       n >= 3 && filename[n - 3] in "cC" && filename[n - 2] in "sS" && filename[n - 1] in "vV")
  {
  }

  /** Upper case and a missing dot are both accepted. */
  lemma CsvNamesAccepted()
    ensures IsCsvName("DATA.CSV") && IsCsvName("data.csv") && IsCsvName("datacsv")
  {
    CsvNameByLetters("DATA.CSV");
    CsvNameByLetters("data.csv");
    CsvNameByLetters("datacsv");
  }

  /** Another extension, trailing characters, or a name too short are rejected. */
  lemma CsvNamesRejected()
    ensures !IsCsvName("data.txt") && !IsCsvName("data.csvx") && !IsCsvName("data") && !IsCsvName("")
  {
    CsvNameByLetters("data.txt");
    CsvNameByLetters("data.csvx");
    CsvNameByLetters("data");
    CsvNameByLetters("");
  }

  /** The request URL: the fixed prefix, then the dates copied in verbatim. */
  function BuildUrl(startDate: string, endDate: string): (url: string)
  {
    QueryPrefix + (startDate + EndDateParam + endDate)
  }

  /** Reads the two dates back out of the part of a URL after `QueryPrefix`:
      the start date runs up to the first `&`. */
  function SplitQuery(query: string): (dates: Option<(string, string)>)
  {
    if '&' !in query then None
    else
      var i := IndexOf(query, '&');
      if StartsWith(query[i..], EndDateParam) then Some((query[..i], query[i + |EndDateParam|..]))
      else None
  }

  /** Reads the two dates back out of a URL. */
  function ParseUrl(url: string): (dates: Option<(string, string)>)
  {
    if StartsWith(url, QueryPrefix) then SplitQuery(url[|QueryPrefix|..]) else None
  }

  lemma QueryRoundTrip(startDate: string, endDate: string)
    requires '&' !in startDate
    ensures SplitQuery(startDate + EndDateParam + endDate) == Some((startDate, endDate))
  {
    var tail := "enddate=" + endDate;
    var query := startDate + ['&'] + tail;
    assert startDate + EndDateParam + endDate == query;
    IndexOfAfterFree(startDate, '&', tail);
    var i := |startDate|;
    assert query[i..] == EndDateParam + endDate;
    assert query[..i] == startDate;
    assert query[i + |EndDateParam|..] == endDate;
  }

  /** With no `&` in the start date, the URL determines both dates. */
  lemma UrlRoundTrip(startDate: string, endDate: string)
    requires '&' !in startDate
    ensures ParseUrl(BuildUrl(startDate, endDate)) == Some((startDate, endDate))
  {
    StartsWithConcat(QueryPrefix, startDate + EndDateParam + endDate);
    QueryRoundTrip(startDate, endDate);
  }

  /** Without encoding, different date pairs can produce the same URL. */
  lemma UrlAmbiguous()
    ensures BuildUrl("a&enddate=b", "c") == BuildUrl("a", "b&enddate=c")
  {
    assert "a&enddate=b" + EndDateParam + "c" == "a" + EndDateParam + "b&enddate=c";
  }

  /** Resolves the options against the default window. An output name failing the
      `csv` check stops the run before any URL exists; otherwise each option is the
      supplied text or its default, and the URL carries exactly the resolved dates. */
  function ValidateArguments(defaultStart: string, defaultEnd: string, args: Overrides): (r: Result<Config, Abort>)
    ensures r.Err? <==> !IsCsvName(EffectiveOutputFile(args))
    ensures r.Err? ==> r.error == InvalidFilename(EffectiveOutputFile(args))
    ensures r.Ok? ==> r.value.startDate == (if args.startDate.None? then defaultStart else args.startDate.value)
    ensures r.Ok? ==> r.value.endDate == (if args.endDate.None? then defaultEnd else args.endDate.value)
    ensures r.Ok? ==> r.value.outputFile == (if args.outputFile.None? then DefaultOutputFile else args.outputFile.value)
    ensures r.Ok? ==> (r.value.verbose == DefaultOne <==> args.verbose.None?)
    ensures r.Ok? && args.verbose.Some? ==> r.value.verbose == Supplied(args.verbose.value)
    ensures r.Ok? ==> r.value.url == BuildUrl(r.value.startDate, r.value.endDate)
  {
    var filename := EffectiveOutputFile(args);
    if !IsCsvName(filename) then Err(InvalidFilename(filename))
    else
      var startDate := args.startDate.GetOr(defaultStart);
      var endDate := args.endDate.GetOr(defaultEnd);
      var verbose := if args.verbose.Some? then Supplied(args.verbose.value) else DefaultOne;
      Ok(Config(BuildUrl(startDate, endDate), startDate, endDate, filename, verbose))
  }

  /** With every option omitted the default name passes and the defaults flow through. */
  lemma AllDefaults(defaultStart: string, defaultEnd: string)
    ensures ValidateArguments(defaultStart, defaultEnd, Overrides(None, None, None, None))
      == Ok(Config(BuildUrl(defaultStart, defaultEnd), defaultStart, defaultEnd, DefaultOutputFile, DefaultOne))
  {
    CsvNameByLetters(DefaultOutputFile);
  }

  /** The resolved URL names exactly the resolved dates, read back from the URL alone,
      whenever the start date has no `&`; `DefaultWindow.DefaultStartNoAmp` shows the
      default start date never has one. */
  lemma ConfigUrlCarriesDates(defaultStart: string, defaultEnd: string, args: Overrides, cfg: Config)
    requires ValidateArguments(defaultStart, defaultEnd, args) == Ok(cfg)
    requires '&' !in cfg.startDate
    ensures ParseUrl(cfg.url) == Some((cfg.startDate, cfg.endDate))
  {
    UrlRoundTrip(cfg.startDate, cfg.endDate);
  }
}
