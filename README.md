# battery-logger, modelled in Dafny

battery-logger samples a laptop's battery level and AC state once a
minute and appends each sample as a row to a CSV log. The log is trimmed
to its last `max_lines` rows once it grows `trim_buffer` rows past that
limit. A terminal dashboard reads the log back and shows several things:

- a zoomable, pannable time chart of the charge level, with a day/night
  background, time labels and midnight markers;
- a weekly screen-on-time bar chart;
- a status panel with the current charge or discharge rate, fitted by
  weighted linear regression, and the time to full or to empty.

This project models the sequential core of that program and proves what
it promises:

| module | file | what it models |
|---|---|---|
| `Analytics` | `analytics.dfy` | `internal/analytics/analytics.go`: loose booleans, window and same-AC suffix filters, the regression's failure cases and its exactness on a line, the rate/estimate branching, `FmtDur`, the CSV header aliases and row parsing |
| `LogFile` | `logfile.dfy` | `internal/logfile/writer.go`: the row format, line counting, backward chunked tail reading, the in-place reversal, and `TrimToLast` |
| `Config` | `config.dfy` | `internal/config/config.go`: defaults, the `key = value` line parser, the order in which files override each other, and `~` expansion |
| `TuiUtils`, `TuiStatus` | `tui_utils.dfy`, `tui_status.dfy` | `internal/tui/utils.go` and `internal/tui/status_generator.go`: `FormatDurationAuto` and the status summary |
| `TuiChart` | `tui_chart.dfy` | `internal/tui/chart.go`: splitting the samples into the charging and discharging series |
| `TimeChart` | `timechart.dfy` | `internal/widgets/timechart.go`: the `BatteryChart` class (zoom, pan, reset, data bounds, change callback) and its drawing rules |
| `SotBarChart` | `sotbarchart.dfy` | `internal/widgets/sotbarchart.go`: the week of bars and the integer layout |
| `LoggerMain`, `LoggerTui` | `logger_main.dfy`, `logger_tui.dfy` | `cmd/battery-logger/main.go`, `cmd/battery-zen/main.go` and `cmd/battery-logger/tui.go`: the time-grid binning, the two series built from it, `sampleOnce`'s trim, and the logger's own estimate and status |

The support modules are:

- `Wrappers` holds `Option` and `Result`.
- `GoInts` and `GoTime` hold Go's truncating `/` and `%`, float-to-integer
  truncation, int64 limits, and `time.Duration` and `time.Time`
  arithmetic.
- `GoStrings` holds `strings.TrimSpace`, ASCII `ToLower`, `strconv.Itoa`
  and `strconv.Atoi`.
- `Geometry` holds `image.Rectangle`.

Conventions:

- **Time.** A `time.Time` is an integer count of nanoseconds, and the zero
  `time.Time` is 0. A `time.Duration` is an integer count of nanoseconds.
- **Floats.** A `float64` is a `real`. NaN is modelled only in chart
  values, as the `Float` datatype. A battery reading parsed from the log
  is always a number (see "Left out").
- **Float to integer.** Truncation is written out with `Trunc`. Go's
  truncating `/` and `%` are `Quo` and `Rem`.
- **Files.** A file is its content as a string, and `None` stands for a
  file that does not exist.
- **Parameters.** What the program obtains from the operating system, the
  clock, the calendar or a library parser is a parameter of the model.
  This covers:
  - the current time;
  - `time.Time.Format`, `Hour()` and midnight;
  - `time.Parse` and `strconv.ParseFloat`;
  - `filepath.Join`;
  - the environment and home directory;
  - the contents of configuration files;
  - the regression's weight function `exp(alpha·x)`;
  - the daily screen-on time;
  - the `%.3f` rate text.

`cmd/battery-zen/main.go` repeats `findLastACTransition`,
`binDataToTimeGrid`, `createTimeBasedSeries` and `sampleOnce`'s trim
rule of `cmd/battery-logger/main.go` line for line. Each is defined once,
and the table cites both files.

`status_generator.go` and `tui.go` call `CalculateRateAndEstimate` with a
fourth argument, `MaxChargePercent`. The definition in `analytics.go`
takes three arguments and aims at 100%. The model follows that
definition.

## Model

| member | source | states |
|---|---|---|
| Analytics.ParseBoolLoose | internal/analytics/analytics.go:19-35 | after trimming and lower-casing, the five true words give true and the five false words give false; any other text `strconv.Atoi` accepts gives `value != 0`; an error comes exactly when the text is neither a word nor an integer |
| Analytics.ParseBoolLooseOfInteger | internal/analytics/analytics.go:23-33 | every text that trims and lower-cases to an integer `Atoi` accepts (sign, leading zeros, surrounding spaces, and "1" and "0" among the words) parses as `value != 0` |
| Analytics.ParseBoolLooseOfItoa | internal/analytics/analytics.go:23-33 | in particular every int64 as `strconv.Itoa` prints it parses as `n != 0` |
| Analytics.AtoiOfWords | internal/analytics/analytics.go:24-33 | of the ten words only "1" and "0" are integers, and they read as 1 and 0, so the word branch and the integer branch agree |
| Analytics.NotAWord | internal/analytics/analytics.go:24-31 | integer text other than "1" and "0" never matches one of the ten words, so it reaches the integer branch |
| Analytics.WindowStart | internal/analytics/analytics.go:44-48 | the cut index: every row before it is strictly before the cut, and the row at it is not |
| Analytics.FilterWindow | internal/analytics/analytics.go:40-50 | empty input gives empty output; otherwise the suffix from the first row not before `last.T - since` |
| Analytics.FilterWindowKeepsLast | internal/analytics/analytics.go:44-49 | for a non-negative `since` the last row is always kept |
| Analytics.FilterWindowOfChronological | internal/analytics/analytics.go:40-50 | on rows in time order, a row is kept exactly when it is at or after the cut |
| Analytics.SameACStart | internal/analytics/analytics.go:105-111 | the start of the maximal suffix whose rows all have the given AC state; the row before it has the other state |
| Analytics.FilterContiguousACState | internal/analytics/analytics.go:98-113 | returns that maximal same-state suffix, in the original order |
| Analytics.SameACSuffixEmpty | internal/analytics/analytics.go:98-113 | the suffix is empty exactly when there are no rows or the last row has the other state |
| Analytics.LinReg | internal/analytics/analytics.go:56-81 | the fit fails for fewer than 2 rows and, otherwise, exactly when the weighted denominator is 0 |
| Analytics.WeightedLinReg | internal/analytics/analytics.go:56-81 | the loop accumulates the five weighted sums; `ok` is true exactly when the fit exists, which then gives (slope, intercept); on failure the result is (0, 0, false) |
| Analytics.Solve | internal/analytics/analytics.go:74-80 | fails exactly when the denominator is 0 |
| Analytics.SolveOf | internal/analytics/analytics.go:78-80 | with a non-zero denominator the slope and intercept are the two quotients the source computes |
| Analytics.SumsOfNonNegative | internal/analytics/analytics.go:62-72 | with non-negative weights the total weight is non-negative, and a zero total weight implies a zero weighted x-sum |
| Analytics.LinRegFailsAtOneInstant | internal/analytics/analytics.go:74-77 | samples all taken at one instant always make the regression fail |
| Analytics.LinRegExactOnLine | internal/analytics/analytics.go:56-81 | when the samples lie on a line `c + m·x`, a successful fit returns exactly slope `m` and intercept `c`, whatever the weights |
| Analytics.CalculateRateAndEstimate | internal/analytics/analytics.go:119-158 | fewer than 2 rows and a failed fit give `ok = false` with their messages; otherwise a charging run is finite exactly when `rate > 1e-6` and reaches 100% at the estimate; a discharging run is finite exactly when `rate < -1e-6` and reaches 0%; a finite estimate carries the "(based on N charging/discharging samples)" text; otherwise the estimate is infinite with the not-charging or not-discharging message |
| Analytics.EstimateNonNegative | internal/analytics/analytics.go:135-155 | for a battery level within 0..100 a finite estimate is never negative |
| Analytics.FmtDur | internal/analytics/analytics.go:85-88 | the dash exactly for an infinite or negative number of minutes |
| Analytics.FmtDurOfMinutes | internal/analytics/analytics.go:89-92 | otherwise the text is the whole hours, "h ", and the remaining whole minutes of the floored minute count |
| Analytics.FirstMatch | internal/analytics/analytics.go:170-178 | the first header cell equal to the name after trimming and lower-casing, or none |
| Analytics.FindColumn | internal/analytics/analytics.go:170-178 | the column lookup returns that cell's index, or -1 |
| Analytics.FirstPresentAlias | internal/analytics/analytics.go:180-197 | the first alias, in priority order, that names some column |
| Analytics.AliasIndexIsFirstPresent | internal/analytics/analytics.go:180-197 | the chained `if idx == -1` lookups give the column of the first present alias, or -1 when none is present |
| Analytics.FindAlias | internal/analytics/analytics.go:180-197 | the loop over the alias list computes that same column |
| Analytics.FirstLayout | internal/analytics/analytics.go:210-229 | the time of the first layout that parses, and none exactly when every layout fails |
| Analytics.ParseTimestamp | internal/analytics/analytics.go:210-229 | tries RFC 3339, then the three fallback layouts in order |
| Analytics.KeepParsedSplit | internal/analytics/analytics.go:203-242 | the rows kept from a range of records are those kept from its two halves, in order |
| Analytics.ParseCSV | internal/analytics/analytics.go:164-244 | empty input is the "empty csv" error, a missing column is the header error, and a success keeps fewer rows than there are records |
| Analytics.ResolveHeader | internal/analytics/analytics.go:180-201 | the three columns by alias priority, or none when one is missing |
| Analytics.ParseRecord | internal/analytics/analytics.go:205-241 | a record is kept exactly when it is long enough and its time (under the first accepting layout), its loose AC flag and its trimmed level all parse, and the kept row is made of those three values |
| Analytics.ReadRecord | internal/analytics/analytics.go:205-241 | the loop body computes `ParseRecord`: a record that is too short, or whose time, flag or level does not parse, is skipped |
| Analytics.KeepParsedEvery | internal/analytics/analytics.go:203-242 | a range of records that all parse is kept whole, row for row, in order |
| Analytics.WrittenFields | internal/logfile/writer.go:34-38 | the data line the writer appends is the three fields timestamp, 1 or 0, and the percentage, joined by commas |
| Analytics.WrittenLog | internal/logfile/writer.go:28-38 | the records of a written log: the header, then one record per sample, in order |
| Analytics.LoggedRows | internal/analytics/analytics.go:240 | the rows the samples stand for, one per sample, in order |
| Analytics.HeaderKeyOfPlain | internal/analytics/analytics.go:171-173 | a name without capitals or white space is its own lookup key |
| Analytics.FirstMatchAt | internal/analytics/analytics.go:170-178 | the lookup stops at the first matching cell |
| Analytics.WrittenHeaderText | internal/logfile/writer.go:29-31 | the header line is `timestamp`, `ac_connected` and `battery_life` joined by commas |
| Analytics.WrittenHeaderColumns | internal/analytics/analytics.go:180-201 | the reader finds the writer's three columns at positions 0, 1 and 2 |
| Analytics.ReadWrittenRecord | internal/analytics/analytics.go:205-241 | a written data line reads back as its sample when the timestamp parses as RFC 3339 and the percentage as its number |
| Analytics.ReadWrittenLogAt | internal/analytics/analytics.go:203-241 | each data record of a written log reads back as its sample |
| Analytics.ReadBackWrittenLog | internal/analytics/analytics.go:164-244 | round trip with the writer of `internal/logfile/writer.go:18-42`: the records of a log the logger wrote (the header record, then one record per sample, each split at its commas) parse back to exactly its samples, in order |
| Analytics.ParseCSVRows | internal/analytics/analytics.go:164-244 | the loop keeps exactly the parsable records, in order, after the header |
| LogFile.AppendCSV | internal/logfile/writer.go:18-42 | the header comes first only for a new file, the existing content is kept, and the file ends with the row `ts,1|0,pct\n`; its length is exactly the header or old content plus the row, so nothing else is written |
| LogFile.AppendCSVAddsLines | internal/logfile/writer.go:29-40 | one append adds one line to an existing file and two to a new one |
| LogFile.CsvRowIsOneLine | internal/logfile/writer.go:34-38 | a row is exactly one line when the timestamp holds no newline |
| LogFile.LineCount | internal/logfile/writer.go:45-68 | the number of newlines, and 0 for a missing file |
| LogFile.LastNewline | internal/logfile/writer.go:187-189 | the position of a newline, and no newline follows it |
| LogFile.ExtractLinesFromEnd | internal/logfile/writer.go:186-197 | the backward scan computes the recursive definition of taking the text after each newline, empty text skipped, until `n` lines are held |
| LogFile.ExtractLinesShape | internal/logfile/writer.go:186-197 | the lines taken are non-empty and newline-free; they never exceed `n`; what is left is a prefix of the buffer that ends just before a consumed newline |
| LogFile.ExtractLinesStops | internal/logfile/writer.go:187 | the scan stops only with `n` lines held or no newline left |
| LogFile.ExtractLinesAppend | internal/logfile/writer.go:172-175 | scanning chunk by chunk, carrying the unfinished text, gives the same result as one scan of the whole file |
| LogFile.ReadLinesBackward | internal/logfile/writer.go:147-184 | the 8192-byte chunk loop returns the lines taken from the end, plus the leading partial line when fewer than `n` were found; as written it reads the whole file for every `n >= 0` (see Findings) |
| LogFile.ReadLinesBackwardStopping | internal/logfile/writer.go:147-184 | with the guard `len(lines) < n` the loop returns the same lines and stops reading early only once `n` lines are held |
| LogFile.ReadBackwardOfPlain | internal/logfile/writer.go:147-184 | on a file of newline-terminated lines it returns the last `n` lines, newest first |
| LogFile.ReversedTwice | internal/logfile/writer.go:199-203 | reversal is its own inverse |
| LogFile.ReverseStrings | internal/logfile/writer.go:199-203 | the array afterwards holds its old contents reversed |
| LogFile.TerminateLines | internal/logfile/writer.go:138-142 | each element gains a trailing newline unless it already ends in one |
| LogFile.Tail | internal/logfile/writer.go:119-127 | an empty file has an empty tail |
| LogFile.TailLastLines | internal/logfile/writer.go:119-145 | nothing for an empty file; otherwise the lines read backward, put back in file order, each ending in a newline |
| LogFile.TailLinesEndInNewline | internal/logfile/writer.go:137-142 | every line of the tail ends in a newline |
| LogFile.TailOfLines | internal/logfile/writer.go:119-145 | the tail of a file of lines is its last `n` lines in file order, or all of them |
| LogFile.FirstLine | internal/logfile/writer.go:84 | the header read is a prefix of the file: the whole file when it has no newline, otherwise it ends in a newline and holds no other |
| LogFile.TrimToLast | internal/logfile/writer.go:71-116 | a missing file is left alone, and an existing file is replaced |
| LogFile.TrimToLastOfLongFile | internal/logfile/writer.go:84-111 | a file with at least `n` data lines is rewritten as its header and its last `n` data lines |
| LogFile.TrimToLastDuplicatesHeader | internal/logfile/writer.go:102-111 | a file with fewer than `n` data lines gets its header written twice (see Findings) |
| LogFile.TrimToLastFixed | internal/logfile/writer.go:71-116 | the corrected trim leaves a missing file alone |
| LogFile.TrimToLastFixedKeepsHeaderOnce | internal/logfile/writer.go:84-111 | the corrected trim keeps the header once and the last `n` data lines, however many data lines there are |
| Config.XdgStateHome | internal/config/config.go:185-191 | `$XDG_STATE_HOME` when set, otherwise `~/.local/state` |
| Config.XdgConfigHome | internal/config/config.go:177-183 | `$XDG_CONFIG_HOME` when set, otherwise `~/.config` |
| Config.Defaults | internal/config/config.go:24-35 | the built-in values 60, 300, "Local", state-home/battery-logger, "battery.csv", 1000, 100 and 100 |
| Config.ConfigPaths | internal/config/config.go:38-47 | three files, the system file last |
| Config.Unquote | internal/config/config.go:123-125 | a value in quotes is split into a leading run of quotes, the kept middle and a trailing run of quotes, and the middle has no quote at either end; any other value is unchanged |
| Config.UnquoteOfQuoted | internal/config/config.go:123-125 | a value written in one pair of quotes, with no quote at either end, reads back as itself |
| Config.ParseLine | internal/config/config.go:106-125 | no setting exactly for a blank line, a comment line or a line without `=`; otherwise the key is trimmed |
| Config.ParseLineKeyHasNoEquals | internal/config/config.go:114-119 | the split is at the first `=` |
| Config.ParseLineOfPair | internal/config/config.go:106-125 | a line `key=value` with a trimmed key and value parses to the key and the unquoted value |
| Config.ParseLineOfSetting | internal/config/config.go:106-125 | a well-formed unquoted `key=value` line parses back to exactly that key and value |
| Config.ParseLineOfQuotedSetting | internal/config/config.go:106-125 | a well-formed `key="value"` line parses back to exactly that key and the value without its quotes |
| Config.Field | internal/config/config.go:13-22 | the eight known keys, five of them integers and three of them text |
| Config.ApplyChangesOnlyItsKey | internal/config/config.go:128-155 | an unknown key changes nothing; a text key takes the value; an integer key takes it only when it parses and otherwise keeps the old value; no other field changes |
| Config.UnsetKeyKept | internal/config/config.go:105-156 | lines that do not set a key leave it as it was |
| Config.LastTextSettingWins | internal/config/config.go:105-156 | the last line that sets a text key decides its value |
| Config.LoadConfigFile | internal/config/config.go:97-159 | the scanner loop applies the file's lines in order |
| Config.ApplyLinesAppend | internal/config/config.go:80-87 | applying two runs of lines is applying their concatenation |
| Config.LoadFromIsApplyAll | internal/config/config.go:79-88 | when no file fails, loading applies every line of every file in file order, and a missing file is skipped |
| Config.ExpandHome | internal/config/config.go:90-93 | a log directory that starts with `~` becomes home joined with the rest; any other configuration is unchanged |
| Config.ExpandHomeKeeps | internal/config/config.go:90-93 | the expansion changes no setting other than the log directory |
| Config.Load | internal/config/config.go:73-95 | defaults, then the files in order with the first failure stopping the load, then `~` expansion |
| Config.LastFileWins | internal/config/config.go:79-93 | a text setting in the last file that is read overrides earlier files and the defaults |
| TuiUtils.FormatDurationAuto | internal/tui/utils.go:9-19 | two formats: below 24 hours the text ends in `m` and has no `d` (`HHh MMm`); from 24 hours on it ends in `h`, has no sign and no `m` (`Xd Yh`); `FormatBelowDay` and `FormatFromDay` prove that the numbers read back to the whole hours and minutes |
| TuiUtils.FormatBelowDay | internal/tui/utils.go:10-13 | below a day the text is `HHh MMm`, with hours below 24, minutes below 60, and 60·HH + MM the whole minutes |
| TuiUtils.FormatFromDay | internal/tui/utils.go:14-18 | from a day on the text is `Xd Yh`, with X at least 1, Y below 24, and 24·X + Y the whole hours |
| TuiStatus.FindLastACTransition | internal/tui/status_generator.go:13-30 | zero time and 0 for no rows; otherwise the time and level of the first row of the final same-AC run, which is the first row when the state never changed (the same search is at cmd/battery-logger/main.go:187-207 and cmd/battery-zen/main.go:172-192) |
| TuiStatus.RateLabel | internal/tui/status_generator.go:54-78 | "Charge Rate" exactly when the latest sample is on AC |
| TuiStatus.NeedSamples | internal/tui/status_generator.go:81-85 | the "need ≥2" message names charging on AC and discharging otherwise |
| TuiStatus.CountAC | internal/tui/status_generator.go:88-98 | the AC samples are at most all of them |
| TuiStatus.CountACAppend | internal/tui/status_generator.go:92-98 | counting is additive over concatenation |
| TuiStatus.CountACOfOneState | internal/tui/status_generator.go:92-98 | a run of one state counts all or none |
| TuiStatus.CountSamples | internal/tui/status_generator.go:88-98 | the total is the number of rows, the AC count is the AC rows, and the two counts add up to the total |
| TuiStatus.ConfigLine | internal/tui/status_generator.go:106-114 | the defaults text for no file, the file for one, and the last file with "(+ n more)" for several |
| TuiStatus.LastOf | internal/tui/status_generator.go:126-130 | the last suspend event, or none exactly when there are none |
| TuiStatus.EtaDuration | internal/tui/status_generator.go:59 | an infinite estimate converts to the most negative duration (see Findings) |
| TuiStatus.EstimateAsWritten | internal/tui/status_generator.go:50-86 | the rate label follows the AC state in every branch; fewer than 2 samples give the dash, "n/a", the "need ≥2" message, no duration and the zero time; otherwise the confidence is the analytics text; a failed fit gives the dash, "n/a", no duration and the zero time; a successful fit gives the rate text, the duration `time.Duration(estimate·1 min)` rounded to the minute (`EstimateDurationIsNearestMinute`), that duration's text, and an ETA of now plus the duration rounded to the minute, whatever the estimate |
| TuiStatus.InfiniteEstimateShownNegative | internal/tui/status_generator.go:59-61 | as written, an infinite estimate gives a negative duration and a negative estimate text |
| TuiStatus.FlatChargingIsInfinite | internal/analytics/analytics.go:135-144 | charging samples at a constant level give rate 0 and an infinite estimate, so that path is reachable |
| TuiStatus.Estimate | internal/tui/status_generator.go:50-86 | the corrected estimate fields, with the infinity guard `cmd/battery-logger/tui.go` has: with fewer than 2 contiguous samples the text is the dash, "n/a" and the "need ≥2" message; a failed fit gives the dash and "n/a" with the analytics message; both give no duration and the zero time; an infinite estimate gives the rate text, `∞ ` followed by the confidence, no duration and the zero time; a finite one gives the rate text, the duration rounded to the minute, its text and the ETA |
| TuiStatus.EstimateDurationIsNearestMinute | internal/tui/status_generator.go:59-62 | on a successful finite fit whose duration fits int64 with a minute to spare, the shown duration is a whole number of minutes within half a minute of the estimate, with and without the guard |
| TuiStatus.GuardChangesOnlyInfinite | internal/tui/status_generator.go:50-86 | the guarded and the as-written estimate fields differ exactly when the fit succeeds with an infinite estimate |
| TuiStatus.EstimateIsNeverNegative | internal/tui/status_generator.go:50-86 | the corrected estimate shows ∞ and a zero duration when infinite, and a non-negative, unsigned duration when finite |
| TuiStatus.FormatIsUnsigned | internal/tui/utils.go:9-19 | a non-negative duration never prints with a minus sign |
| TuiStatus.GenerateStatusInfo | internal/tui/status_generator.go:33-157 | latest row, transition, the as-written estimate fields (`EstimateAsWritten`, so an infinite estimate shows the negative duration of the Findings), rate label, counts, `TimeRange = last.T - first.T`, the start and end clock texts, config line and last suspend event |
| TuiChart.ChargingPoints | internal/tui/chart.go:24-35 | only AC points go to the charging list |
| TuiChart.DischargingPoints | internal/tui/chart.go:24-35 | only battery points go to the discharging list |
| TuiChart.AllPoints | internal/tui/chart.go:25-29 | each row becomes the point with its time, level and state |
| TuiChart.PartitionIsPermutation | internal/tui/chart.go:24-35 | the two lists together hold each row's point exactly as often as the rows do |
| TuiChart.ChargingCountIsACCount | internal/tui/chart.go:24-35 | there are as many charging points as AC rows, and the two lists together are as long as the rows |
| TuiChart.SeriesOf | internal/tui/chart.go:37-51 | a series only for a non-empty list, charging first, with its name and colour |
| TuiChart.ProcessChartData | internal/tui/chart.go:15-52 | an error exactly for no rows; otherwise the series of the two lists |
| TuiChart.PartitionTimes | internal/tui/chart.go:24-35 | the times in the two lists are the rows' times, each as often |
| TuiChart.SeriesSpanTheSamples | internal/tui/chart.go:15-52 | the chart's data bounds are the earliest and latest sample times |
| TuiChart.UpdateChartWidget | internal/tui/chart.go:55-59 | after clear-then-set the chart holds the new series, with their bounds |
| TimeChart.ZoomedIn | internal/widgets/timechart.go:697-703 | zooming in never goes below `minWindow` |
| TimeChart.ZoomedOut | internal/widgets/timechart.go:704-711 | zooming out never goes above `maxWindow` |
| TimeChart.ZoomStaysInRange | internal/widgets/timechart.go:696-711 | from inside the range, zooming in shrinks the window and zooming out grows it, both within `[minWindow, maxWindow]`, except at the bounds |
| TimeChart.Zoomed | internal/widgets/timechart.go:696-719 | the end is kept and the start is `end - window` |
| TimeChart.PanDistance | internal/widgets/timechart.go:742 | the step is between 0 and the window |
| TimeChart.PanSpan | internal/widgets/timechart.go:744-768 | the result stays within the data bounds, and is the shifted span whenever that fits |
| TimeChart.Panned | internal/widgets/timechart.go:735-771 | the window width is kept, and there is no change while either data bound is the zero time |
| TimeChart.PanKeepsWidth | internal/widgets/timechart.go:755-768 | a window that fits the data keeps its width |
| TimeChart.PanPinsWideWindow | internal/widgets/timechart.go:760-767 | a window wider than the data becomes exactly the data range |
| TimeChart.ResetView | internal/widgets/timechart.go:645-650 | the window is the base window, ending now |
| TimeChart.Earliest | internal/widgets/timechart.go:179-195 | the least time |
| TimeChart.Latest | internal/widgets/timechart.go:179-195 | the greatest time |
| TimeChart.DataBounds | internal/widgets/timechart.go:173-201 | the least and greatest point time over all series, and zero for no points |
| TimeChart.DataBoundsCoverEveryPoint | internal/widgets/timechart.go:173-201 | every point of every series lies within the bounds |
| TimeChart.ScanPoints | internal/widgets/timechart.go:183-196 | the inner loop keeps `first`, `earliest` and `latest` as the minimum and maximum of the times seen |
| TimeChart.BatteryChart.constructor | internal/widgets/timechart.go:88-123 | a 24-hour base window ending now, no series, zero data bounds, day hours as given, no callback |
| TimeChart.BatteryChart.SetOnZoomChange | internal/widgets/timechart.go:232-234 | a callback is installed |
| TimeChart.BatteryChart.TriggerZoomChange | internal/widgets/timechart.go:237-241 | the callback receives the current view once, if one is installed |
| TimeChart.BatteryChart.UpdateDataBounds | internal/widgets/timechart.go:173-201 | with no series nothing changes; otherwise the bounds are those of the series |
| TimeChart.BatteryChart.SetSeries | internal/widgets/timechart.go:167-170 | the series are replaced and the bounds recomputed |
| TimeChart.BatteryChart.AddSeries | internal/widgets/timechart.go:204-211 | the series is appended and the bounds recomputed |
| TimeChart.BatteryChart.ClearSeries | internal/widgets/timechart.go:214-219 | no series and zero bounds |
| TimeChart.BatteryChart.SetWindow | internal/widgets/timechart.go:222-229 | the base and current windows are set and the view ends now |
| TimeChart.BatteryChart.Zoom | internal/widgets/timechart.go:696-719 | the view becomes the zoomed view, and the callback fires once |
| TimeChart.BatteryChart.Pan | internal/widgets/timechart.go:735-776 | the view becomes the panned view; the callback fires once, unless a data bound is the zero time |
| TimeChart.KeyAction | internal/widgets/timechart.go:631-655 | the arrow keys pan, i and I zoom in, o and O zoom out, Esc resets, and nothing else acts |
| TimeChart.BatteryChart.Keyboard | internal/widgets/timechart.go:631-655 | each key's effect on the view and on the callback: the pan keys notify unless a data bound is zero, the zoom keys and Esc always notify, other keys change nothing |
| TimeChart.BatteryChart.Mouse | internal/widgets/timechart.go:658-685 | the wheel zooms and notifies the callback, a left press starts a drag at the position, a release ends it, and nothing else changes the view; only a press moves the drag points, and only a press or release changes the dragging flag |
| TimeChart.DrawFrame | internal/widgets/timechart.go:249-272 | "No data" without series; a resize below an 11×7 area; otherwise a plot area inset from the area, at least 5×3 |
| TimeChart.LabelInterval | internal/widgets/timechart.go:418-435 | between 5 minutes and a day, and always dividing a day |
| TimeChart.LabelIntervalMonotone | internal/widgets/timechart.go:418-435 | a wider window never gets a smaller label interval |
| TimeChart.LabelIntervalsPerWindow | internal/widgets/timechart.go:418-435 | above 30 minutes, a window holds more than 2 and at most 14 intervals |
| TimeChart.ColumnInPlot | internal/widgets/timechart.go:444-445 | a time inside the window maps to a column inside the plot |
| TimeChart.TicksFrom | internal/widgets/timechart.go:439-460 | ticks are consecutive multiples of the interval strictly inside the window, each at its column inside the plot, and they cover the window to its end |
| TimeChart.BatteryChart.XLabels | internal/widgets/timechart.go:411-463 | no labels below a width of 10; otherwise the ticks start at the first multiple of the interval after the start |
| TimeChart.BatteryChart.DayColumns | internal/widgets/timechart.go:332-359 | the day-coloured columns are exactly the plot columns whose hour is in `[dayStart, dayEnd)`, in increasing order |
| TimeChart.DayBreaks | internal/widgets/timechart.go:498-529 | midnight markers are a day apart, strictly after the start and before the end, at their columns within the plot, and cover the window |
| TimeChart.Place | internal/widgets/timechart.go:556-569 | a NaN point is not placed, and a placed point is on the canvas |
| TimeChart.Drawable | internal/widgets/timechart.go:550-569 | the number of points drawn is at most the number of points |
| TimeChart.DrawPointShape | internal/widgets/timechart.go:550-594 | one point adds one mark exactly when it is in the window and on the canvas, and the drawing stays well formed |
| TimeChart.AppendMark | internal/widgets/timechart.go:571-593 | a mark on the canvas, inside the window, and (for a segment) starting at the pen within 5 minutes keeps the drawing well formed |
| TimeChart.TraceShape | internal/widgets/timechart.go:550-594 | one mark per drawable point; every mark is on the canvas; a segment joins consecutive drawn points at most 5 minutes apart; the skip and lift rules are `OutOfWindowSkipped`, `UnplacedLiftsPen` and `GapBreaksLine` |
| TimeChart.OutOfWindowSkipped | internal/widgets/timechart.go:551-553 | a sample outside the window leaves the drawing, pen included, unchanged |
| TimeChart.UnplacedLiftsPen | internal/widgets/timechart.go:556-570 | a NaN or off-canvas sample inside the window lifts the pen and draws nothing |
| TimeChart.GapBreaksLine | internal/widgets/timechart.go:556-590 | after a NaN or off-canvas sample the next drawable sample is a lone pixel, however close in time |
| TimeChart.UnbrokenLine | internal/widgets/timechart.go:573-582 | points all drawable and at most 5 minutes apart give one unbroken line |
| TimeChart.DrawSample | internal/widgets/timechart.go:550-593 | one iteration of the loop performs exactly one step of the drawing rule |
| TimeChart.DrawSeries | internal/widgets/timechart.go:532-597 | nothing for an empty window; otherwise the marks of the drawing rule |
| SotBarChart.FormatDuration | internal/widgets/sotbarchart.go:104-107 | "00:00" for a duration that is not positive |
| SotBarChart.FormatDurationReadsBack | internal/widgets/sotbarchart.go:108-110 | below 100 hours the text is `HH:MM`, with minutes below 60 and 60·HH + MM the whole minutes |
| SotBarChart.BarWidthFits | internal/widgets/sotbarchart.go:145-157 | when the bars fit, the width is at least 1 with spacing 1 and the bars fit in the area; otherwise the width is 1 with spacing 0 |
| SotBarChart.MaxDuration | internal/widgets/sotbarchart.go:160-165 | the largest duration, or 0 |
| SotBarChart.Scale | internal/widgets/sotbarchart.go:160-170 | at least an hour and at least every duration |
| SotBarChart.BarHeightBounds | internal/widgets/sotbarchart.go:179-182 | a height is between 0 and the bar area's height, grows with the duration, and is full at the scale |
| SotBarChart.LabelAt | internal/widgets/sotbarchart.go:205-227 | a label is drawn only when it fits the area horizontally |
| SotBarChart.LayoutBar | internal/widgets/sotbarchart.go:173-228 | today's bar gets the today colour and "Today"; other bars get the weekday; the time label is `formatDuration` |
| SotBarChart.LayoutBars | internal/widgets/sotbarchart.go:173-229 | one bar per day |
| SotBarChart.DrawBars | internal/widgets/sotbarchart.go:173-229 | the loop lays out every bar |
| SotBarChart.ResizeNeededExactly | internal/widgets/sotbarchart.go:115-142 | a resize exactly below 10×5 (the bar-area check never fires on its own); "No SOT data" exactly for an empty week in a large enough area |
| SotBarChart.BarsFitRows | internal/widgets/sotbarchart.go:173-198 | every bar lies within the bar area, and the longest day reaches its top |
| SotBarChart.BarPlace | internal/widgets/sotbarchart.go:175-176 | bar `i` starts at `minX + i·(width + spacing)` |
| SotBarChart.BarsInOrder | internal/widgets/sotbarchart.go:173-198 | bars do not overlap and run left to right |
| SotBarChart.SOTBarChart.constructor | internal/widgets/sotbarchart.go:50-64 | no data |
| SotBarChart.SOTBarChart.UpdateData | internal/widgets/sotbarchart.go:83-101 | seven days, oldest first; only the last is today; a day has data exactly when its time is positive |
| SotBarChart.SOTBarChart.MaxSot | internal/widgets/sotbarchart.go:159-165 | the loop finds the largest duration |
| SotBarChart.SOTBarChart.Draw | internal/widgets/sotbarchart.go:114-232 | the frame is the layout of the week |
| LoggerMain.EmptyBins | cmd/battery-logger/main.go:228-234 | bins at `start + k·binSize`, all without data |
| LoggerMain.Fill | cmd/battery-logger/main.go:237-249 | filling keeps the bins' count and times |
| LoggerMain.LastInBin | cmd/battery-logger/main.go:237-249 | the last row that falls in a bin |
| LoggerMain.FillLastSampleWins | cmd/battery-logger/main.go:237-249 | a bin holds its last row's level and state, or stays empty |
| LoggerMain.BinDataToTimeGrid | cmd/battery-logger/main.go:218-252 | no bins for no rows; otherwise the grid from `last.T - window` at `binSize` steps, filled as above (the same code is at cmd/battery-zen/main.go:203-237) |
| LoggerMain.GridSize | cmd/battery-zen/main.go:203-219 | the bin count is the `n` with `(n-1)·binSize <= window < n·binSize`, that is ⌊window/binSize⌋+1 |
| LoggerMain.GridBin | cmd/battery-zen/main.go:222-234 | bin `k` is at `start + k·binSize` and holds the last row in it, or nothing |
| LoggerMain.SampleInWindowIsBinned | cmd/battery-logger/main.go:237-249 | every row inside the window lands in a bin of the grid |
| LoggerMain.LatestSampleFillsLastBin | cmd/battery-logger/main.go:224-249 | the last bin always holds the latest sample |
| LoggerMain.CreateTimeBasedSeries | cmd/battery-logger/main.go:255-299 | two series as long as the bins; the AC value is set exactly for a bin with AC data and the battery value exactly for a bin with battery data; every bin gets a label (the same code is at cmd/battery-zen/main.go:240-284) |
| LoggerMain.SampleOnce | cmd/battery-logger/main.go:84-103 | append, then trim to `MaxLines` exactly when the line count exceeds `MaxLines + TrimBuffer + 1` (the same rule is at cmd/battery-zen/main.go:80-86) |
| LoggerMain.CountNewlinesOfUnlines | internal/logfile/writer.go:45-68 | a file of `k` lines counts `k` |
| LoggerMain.RowText | internal/logfile/writer.go:38 | a row is its text and a newline |
| LoggerMain.AppendedLines | internal/logfile/writer.go:18-42 | appending a row to a file of lines gives the file of one more line |
| LoggerMain.SampleOnceKeepsHeaderAndLastLines | cmd/battery-logger/main.go:92-101 | on a log of header and data lines, one sample gives the header and the last `MaxLines` rows when the rows exceed `MaxLines + TrimBuffer`, and otherwise the log with the new row |
| LoggerMain.FmtDurIsNotMojibake | cmd/battery-logger/main.go:577-587 | a formatted estimate never equals the double-encoded flat or dash text, so the three outcomes stay distinguishable |
| LoggerMain.UnpluggedEstimate | cmd/battery-logger/main.go:571-593 | "need ≥2 unplugged samples" exactly for fewer than 2 rows; the dash exactly when the fit fails; the flat text exactly when the slope is at least -1e-6; otherwise `FmtDur(-batt/b)` with the sample count |
| LoggerMain.TuiEstimate | cmd/battery-logger/main.go:561-593 | the estimate of the final unplugged run |
| LoggerMain.EstimateOfRun | cmd/battery-logger/main.go:575-593 | the branching computes that estimate |
| LoggerMain.NoEstimateOnAC | cmd/battery-logger/main.go:562-569 | while on AC there is no unplugged run, so the "need ≥2" message is shown |
| LoggerMain.DischargeEstimateText | cmd/battery-logger/main.go:577-579 | the discharge estimate reaches 0% and prints as whole hours and minutes |
| LoggerTui.ProcessChartData | cmd/battery-logger/tui.go:191-220 | an error exactly for no rows; otherwise the one-minute grid's two series and labels, with `hasAC` and `hasBatt` exactly when the series shows a value |
| LoggerTui.CopySeries | cmd/battery-logger/tui.go:203-217 | the copies are element for element, and the flags mean "some value is not NaN" |
| LoggerTui.LatestStateIsShown | cmd/battery-logger/tui.go:191-220 | the series of the latest sample's state is always shown |
| LoggerTui.ConfigText | cmd/battery-logger/tui.go:331-340 | the defaults text, the single file, or the last file with "(+ n more)" |
| LoggerTui.StatusEstimate | cmd/battery-logger/tui.go:266-312 | the rate label follows the AC state; fewer than 2 samples give the dash, "n/a" and the "need ≥2" message; a failed fit gives the dash and "n/a"; the confidence comes from analytics |
| LoggerTui.GuardAgreesWithFit | cmd/battery-logger/tui.go:269-287 | the rate guards agree with the analytics ones: a successful fit shows `FmtDur` of a finite estimate and the ∞ text otherwise |
| LoggerTui.FittedEstimateIsShown | cmd/battery-logger/tui.go:269-287 | a successful fit never shows the dash |
| LoggerTui.GenerateStatusInfo | cmd/battery-logger/tui.go:250-362 | the latest row, transition, estimate, label, counts, `timeRange = last.T - first.T`, start and end times, and config line |
| LoggerTui.StatusEstimateOfRun | cmd/battery-logger/tui.go:255-287 | on the final same-state run the shown estimate is `FmtDur` of a finite estimate, or the ∞ text |

## Left out

- I/O of every kind is outside the model. This covers opening, stat-ing,
  renaming and flushing files and their error returns, `os.UserHomeDir`,
  environment variables, `sysfs` battery reads, the PID lock, and
  `GetConfigPaths`, `XDGLogPath` and `Now`. File contents, environment
  values and the existing configuration paths are parameters instead.
- The `encoding/csv` split of the file into records (`readCSV`,
  cmd/battery-logger/main.go:174-176) is outside the model: `ParseCSV`
  starts from records. So `ReadBackWrittenLog` does not cover a stamp
  holding `,`, `"` or a newline, which the split would quote or break.
- Concurrency is outside the model: the ticker goroutines, `UIParams`
  with its mutex, and `termdash.Run`.
- The termdash layout is outside the model. This covers the container,
  text inputs and `Options`, the linechart of `tui.go` with its
  `updateChartWidget`, and the canvas and braille cell writes.
- Drawing is modelled as values rather than as writes to a canvas: a
  frame, tick and midnight positions, day-coloured columns, and a list
  of pixel and segment marks.
- `BatteryChart.Draw` is not modelled as one composition. Its size checks
  are `DrawFrame`, and each drawing step is a member of its own.
- `drawAxes`, `drawYLabels` and `copyBrailleWithBackground` are left out
  because they only write cells. The label text of `drawDateLabels` is
  left out for the same reason; its midnight loop is the one of
  `DayBreaks`.
- `zoomToSelection` is a stub in the program and only clears the drag
  state. `Mouse` models that.
- Chart options other than the day hours are left out: title, colours,
  `showDates` (taken as true) and the y range (fixed at 0 to 100).
- Floating-point rounding is not modelled. Reals stand for `float64`.
  This covers the zoom factors 0.9 and 1.1, the 10% pan step and the
  pixel arithmetic, each truncated exactly as written. It also covers
  the regression sums and the bar heights.
- `WeightedLinReg`: the weight `exp(alpha·x)` is an arbitrary
  non-negative function.
- `Time.Add` is not modelled to saturate or wrap at the int64 limits;
  times are unbounded integers. `Sub` does saturate, and the
  regression's `x` values and the status time range use it. The chart
  (`TimeChart`) writes `end - start` where `timechart.go` writes
  `endTime.Sub(startTime)`. The two agree whenever the difference fits
  in int64, which covers about 292 years either way.
- The calendar is a set of parameters, each given as a function:
  `Hour()`, the midnight of a day, `AddDate`, `Format` and the weekday
  name. The fixed 24-hour step of the midnight loop is kept, so daylight
  saving drift is neither excluded nor examined.
- `time.Parse` and `strconv.ParseFloat` are parameters.
- `ParseFloat` is given as a function to `Option<real>`, so the model
  cannot express that `strconv.ParseFloat` accepts "NaN", "Inf" and
  "Infinity". The program keeps such a row, and its NaN or infinite
  level then reaches the regression. The model's rows always hold a
  number.
- `strconv.Atoi` is a sign-and-digits parser with the int64 range check.
  Its error values are not modelled.
- `strings.ToLower` covers ASCII letters only.
- Go's `%q` quoting in the `ParseBoolLoose` error text is simplified to
  plain quotes.
- `CalculateScreenOnTime`, `CalculateDailyScreenOnTime` and
  `SuspendEvent` are not part of this model. The daily screen-on time
  and the suspend events are parameters.
- The fourth argument, `MaxChargePercent`, passed to
  `CalculateRateAndEstimate` by `status_generator.go` and `tui.go` is
  dropped, because the definition in `analytics.go` takes three
  arguments and aims at 100%.
- `time.Duration(x)` of a float out of the int64 range is taken as the
  most negative duration, which is the amd64 result. Go leaves this
  conversion implementation-defined.
- The `%.3f` rate text and the `%.1f` level text are given by a
  parameter.
- `cmd/battery-logger/main.go` contains double-encoded UTF-8 literals
  (for ∞, — and ≥). They are kept as written, byte for byte.
- `createTimeBasedSeries` takes a `startTime` it never uses. The model
  leaves it out.
- LoggerMain.SampleOnceKeepsHeaderAndLastLines takes `maxLines` and
  `trimBuffer` as natural numbers. A negative `trim_buffer` from the
  configuration could trim a file shorter than `max_lines`. `SampleOnce`
  itself takes any integers.
- `readLinesBackward` reads the file through `Seek` and `ReadFull`. The
  model slices the content at the same 8192-byte boundaries instead.

## Findings

| source | as written | input that shows it | evidently intended | confidence | as-written member | corrected member |
|---|---|---|---|---|---|---|
| internal/logfile/writer.go:84-111 | `TrimToLast` reads the header, then `tailLastLines` reads backward from the end of the same file, header included; with fewer than `n` data lines the backward read reaches the header line and keeps it as a data line | the `trim` command, `TrimToLast(1000)`, on a file holding a header and 3 rows writes the header, the header again, and the 3 rows | keep the header once, followed by the last `n` data lines (the comment at line 70) | not executed | LogFile.TrimToLastDuplicatesHeader | LogFile.TrimToLastFixedKeepsHeaderOnce |
| internal/logfile/writer.go:156 | `readLinesBackward` loops while `len(lines) <= n`, but `extractLinesFromEnd` stops at `len(lines) < n`, so `len(lines)` never exceeds `n` and the loop goes on to the start of the file; the result is right but the read is not the efficient tail the comment at line 118 describes | any file larger than 8192 bytes whose last chunk already holds `n` lines, for example `n = 1` and a 100 000-byte log: every chunk is read | stop reading once `n` lines are held (`len(lines) < n`) | not executed | LogFile.ReadLinesBackward | LogFile.ReadLinesBackwardStopping |
| internal/tui/status_generator.go:59-61 | an infinite estimate (rate within ±1e-6) is converted with `time.Duration(+Inf · 6e10)`, which on amd64 yields the most negative duration; `Round` and `FormatDurationAuto` then show a negative duration | charging samples all at one battery level (for example 80%, 80%, 80%) with distinct times, so the fit succeeds with rate 0 | show ∞ and no duration for an infinite estimate, as `tui.go:276-284` does | not executed | TuiStatus.InfiniteEstimateShownNegative | TuiStatus.EstimateIsNeverNegative |
