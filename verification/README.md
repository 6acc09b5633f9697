# fuel.py decision logic in Dafny

`fuel.py` is a command-line script. It fetches contact/fuel records for a date
range from an HTTP API and writes them to a CSV file. Most of it is I/O. This
project models the deterministic decisions inside it:

- **Default query window** (`getDates`): the first and the last day of the month
  given by the year and month the script reads from the clock. The last day is the
  Gregorian month length that `calendar.monthrange` returns. The dates are written through f-strings, so the year, month and last
  day are not zero-padded.
- **Argument resolution** (`validateArguments`): an omitted option takes its
  default. The output filename must end in `csv` after lower-casing. The request
  URL is the fixed prefix, then the token, then the two dates, joined by plain
  concatenation.
- **The pipeline** (`apiCall`, `writeCSV` and the top-level steps): only HTTP
  status 200 continues. An empty record list stops the run without writing a file.
  Each abort ends the process with exit status 1. The summary prints only when
  `verbose == 1`.

Modules, in dependency order:

- `Results`: `Option` and `Result`.
- `Decimal`: `str(int)` as `Show`, with `Parse` as its inverse.
- `Text`: `lower` and `endswith`, which the filename check uses. It also has
  `StartsWith` and `Split`, which exist only to read the URL and the dates back.
- `Calendar`: the leap-year rule and month lengths.
- `DefaultWindow`: `getDates`.
- `Arguments`: `validateArguments` and the URL.
- `Pipeline`: the request and file steps and the whole run.

Some inputs come from outside the script and become parameters:

- The clock readings are a `Today(year, month)` value: the year and the month as
  the script reads them, from two separate calls of `date.today()`.
- The command line is an `Overrides` value, with one optional string per option.
- The HTTP response is a `Response(status, records)` value.

What the run does to the outside world is returned as a list of `Effect`s: the GET
request, the file write and the summary. Each abort is a `Pipeline.Outcome` that
carries the reason.

## Where the code and its own text disagree

The model follows the code in each of these cases:

- The error message and help text say the name must end in `.csv`. The code checks
  only `csv`, so `datacsv` is accepted (`Arguments.CsvNamesAccepted`).
- The help text suggests `YYYY-MM-DD` dates. The defaults are unpadded, so July 2021
  gives `2021-7-01` and `2021-7-31` (`DefaultWindow.July2021`).
- The help text for `-v` says `1` turns the summary on. argparse delivers a supplied
  value as text, and the script compares it with the integer `1`. So any `-v` given on
  the command line, `-v 1` included, suppresses the summary. Only the default prints
  it (`Pipeline.SummaryOnlyByDefault`).
- The help texts of `-s` and `-e` describe the two defaults the wrong way round. The
  code uses the first day for the start and the last day for the end.

## Model

| member | source | states |
|---|---|---|
| Decimal.Show | fuel.py:36-37 | An interpolated integer is a non-empty run of digits. It has one digit exactly when the number is below 10, and it starts with `0` only for zero, so there is no padding. |
| Decimal.ParseShow | fuel.py:36-37 | Reading back the decimal text of a number gives that number. |
| Decimal.ShowInjective | fuel.py:36-37 | Different numbers never produce the same text. |
| Calendar.DaysInMonth | fuel.py:33 | The last day of the month is 31 for months 1, 3, 5, 7, 8, 10 and 12, and 30 for 4, 6, 9 and 11. February has 29 days in a leap year (divisible by 4, except centuries not divisible by 400) and 28 otherwise. |
| Calendar.YearLength | fuel.py:33 | The twelve month lengths add up to 366 in a leap year and 365 otherwise. |
| DefaultWindow.GetDatesReadsBack | fuel.py:27-39 | The default start parses back as (year, month, 1), and the default end as (year, month, last Gregorian day of that month). |
| DefaultWindow.NoZeroPadding | fuel.py:29-37 | Both defaults have three `-`-separated fields. Year, month and the end's day are digit runs. Year and month are shared and have no leading zero. The month field is one character exactly for months 1 to 9. The start's day is the literal `01`, and the end's day is two digits. |
| DefaultWindow.DefaultStartNoAmp | fuel.py:36 | The default start date contains no `&`, so the URL built from it reads back to the default dates (with `Arguments.UrlRoundTrip`). |
| DefaultWindow.July2021 | fuel.py:33-37 | July 2021 gives `2021-7-01` and `2021-7-31`. |
| DefaultWindow.LeapFebruary | fuel.py:33-37 | February 2024 ends on `2024-2-29`. |
| DefaultWindow.CenturyFebruary | fuel.py:33-37 | February 1900 ends on `1900-2-28`, because a century not divisible by 400 is not a leap year. |
| Text.Lower | fuel.py:67 | Lower-casing keeps the length. It maps each upper-case ASCII letter to its lower-case letter and leaves every other character unchanged. |
| Arguments.CsvNameByLetters | fuel.py:67 | A name passes the lower-cased `csv` suffix check exactly when it has at least three characters and they end in c, s, v, each in either case. Both directions are proved. |
| Arguments.CsvNamesAccepted | fuel.py:67 | `DATA.CSV`, `data.csv` and `datacsv` are accepted. |
| Arguments.CsvNamesRejected | fuel.py:67-69 | `data.txt`, `data.csvx`, `data` and the empty name are rejected. |
| Arguments.ValidateArguments | fuel.py:41-83 | The run aborts with `InvalidFilename` exactly when the effective name fails the suffix check, before any URL is built. Otherwise each date and the output name are the supplied text or the default (`contactData.csv` for the name). Verbose is the integer default exactly when `-v` is omitted, and the supplied text otherwise. The URL is built from the resolved dates. |
| Arguments.AllDefaults | fuel.py:47-58 | With every option omitted, the result is the default window, `contactData.csv` and verbose `1`. |
| Arguments.UrlRoundTrip | fuel.py:76-81 | If the start date contains no `&`, both dates can be read back verbatim from the built URL. |
| Arguments.UrlAmbiguous | fuel.py:81 | The dates are not encoded, so the pairs (`a&enddate=b`, `c`) and (`a`, `b&enddate=c`) give the same URL. |
| Arguments.ConfigUrlCarriesDates | fuel.py:72-83 | If the resolved start date has no `&`, the resolved URL names exactly the resolved start and end dates. |
| Pipeline.ApiCall | fuel.py:85-98 | The records are handed on exactly when the status is 200. Any other status aborts with `RequestFailed` for that status. |
| Pipeline.WriteCsv | fuel.py:101-118 | An empty record list aborts with `NoRecords`. Otherwise one file write of one row per record is issued, and the count returned is the number of records. The write is assumed to succeed. |
| Pipeline.RunScript | fuel.py:122-139 | A rejected name aborts with no effects at all. A non-200 status aborts after the single request. An empty response aborts after the request, with no file written. Otherwise, with the file write assumed to succeed, the run completes with the record count, and its second effect writes that many rows to the effective name. |
| Pipeline.StagesInOrder | fuel.py:122-134 | Effects occur in stage order (request, write, summary), each at most once. `requests.get` is called with the URL of the resolved dates. |
| Pipeline.AbortStopsLaterStages | fuel.py:126-132 | After an abort, no effect belongs to a stage past the aborting one, and no file was written. |
| Pipeline.ExitZeroExactly | fuel.py:122-132 | With the file write assumed to succeed, the exit status is 0 exactly when the name passes, the status is 200 and at least one record came back. |
| Pipeline.SummaryOnlyByDefault | fuel.py:134-139 | A summary appears exactly when the run completes and `-v` was omitted. It is then the last effect and names the file, the count and both resolved dates. |
| Pipeline.EndToEnd | fuel.py:122-139 | For any clock reading: with `-s 2021-01-01 -e 2021-01-31` and one record, the run requests the URL for those dates, writes one row to `contactData.csv`, prints a summary naming both dates, and exits 0. |

## Left out

- The clock is out: `date.today()` is nondeterministic, so its readings are a
  parameter. `getDates` reads it twice: once for the year (fuel.py:29) and once for
  the month (fuel.py:31). So `Today` is the (year, month) pair as read. If the
  two calls straddle midnight at New Year, the pair can be a year old: the old year
  with January. The model takes the pair as given and does not model the clock.
- Network I/O (`requests.get`) is out: the response is a parameter. A transport
  failure raises an uncaught exception in the script, and the model does not cover
  it.
- JSON decoding (`response.json()`) is out: the body is given directly as its
  `DATA` records.
- The `KeyError` raised when `DATA` is missing is out. It is an uncaught library
  exception with no stated behaviour.
- pandas (`pd.DataFrame`, `df.to_csv`) is out: the column layout and the index
  column are library behaviour. The model keeps only the row count, the
  empty/non-empty decision and which file is written.
- Pipeline.WriteCsv: a failing `df.to_csv` (fuel.py:114) is out. A missing
  directory or a denied permission raises an uncaught `OSError`. The script then
  exits with status 1 and a traceback, and prints no summary. The model treats
  every write as succeeding. So `Pipeline.RunScript` completing and
  `Pipeline.ExitZeroExactly`'s exit status 0 hold only for writes that succeed.
- Pipeline.RunScript: completes whenever the name, status and record count allow it,
  because the write cannot fail in the model (see `Pipeline.WriteCsv` above).
- Pipeline.ExitZeroExactly: the "exactly when" is relative to writes that succeed. A
  failing write gives exit status 1 in the script, and the model does not cover that.
- argparse parsing is out: `-h`, unknown options and parse errors. The parsed
  options are taken as given.
- Printed text is out: the stderr messages and the summary's layout. An abort is a
  reason plus exit status 1, and a summary is an effect that carries its four values.
- `calendar.monthrange` also returns the weekday of the first day. The script
  ignores it, so the model leaves it out.
- Text.Lower: only ASCII letters are lowered. Python's `str.lower` also lowers
  other Unicode letters.
- The access token is the opaque constant string that appears in the script.
