# PCB-marking machine log classification, modelled in Dafny

The repository turns the text logs of a PCB-marking machine into a timeline
of machine states and daily totals per state. Each log line looks like
`HH:MM:SS:<message>`. A cascade of substring triggers decides, line by line:

- the label shown for the line (`Start X`, `End X`, a bare state name,
  `Downtime`, `Off` or `Software Closed`);
- the state carried to the next line;
- whether the label stored for the previous line is rewritten to
  `End <state>` (`end_previous_status`).

`SetFileName File:` lines set the product being made and its eight-digit
product ID. The state and the product carry over from one file to the next.

The scripts form four families, each modelled as one spec-level module of
pure functions plus a class whose methods do the same work in place:

| scripts | modules | what differs |
|---|---|---|
| status8.py, status7.py, status6.py | `Assigned`, `AssignedLog`, `AssignedSummary` | the interval since the previous line is booked on that line's state; status8.py dates a file from its name, status7.py and status6.py from the run date; status6.py labels Close Software lines "Software Closed" instead of switching to Off |
| status4.py, status9.py | `Backward`, `BackwardLog` | a row's time difference is taken backwards against the last stored row, which may belong to the previous file |
| Dataframe.py, filter_one_log.py | `Flags`, `FlagRuns`, `FlagScans` | an older classifier built on four `*_active` flags; filter_one_log.py first drops lines that match none of its keep patterns |

Shared pieces:

- `Text`: Python's string operations.
- `Labels`: states, labels, `base_status_of`, `end_previous_status`.
- `Classifier`: the trigger cascades.
- `LogLine`: the line pattern, clock times and the product block.
- `Calendar`: the date in a file name.
- `Summary`: `generate_status_summary` as a table of sums per date and state.

Every method of the classes `AssignedLog.Log`, `BackwardLog.Log`,
`FlagScans.DataframeScan` and `FlagScans.FilterScan` is proved to leave the
object in the state that the corresponding spec function computes. The
properties of the scripts are proved about those functions.

A script that crashes is modelled as `None`. This happens when `strptime`
refuses a clock time such as `24:00:00`, or when status8.py meets a file name
whose date does not exist, such as `2024.2.30`.

Four behaviours of the code are easy to misread, and the model follows the code in each:

- The code books the interval between two lines on the earlier line's state, at the later line. It does not look forward to the next line.
- Intervals never span two files. `previous_timestamp` is reset when a file is opened.
- Negative intervals are kept as they are, not clamped to zero.
- The midnight split can never fire, because both ends of an interval are combined with the same date. `SplitAtMidnight` is modelled, and `NoMidnightSplit` proves that it never splits.

## Model

| member | source | states |
|---|---|---|
| Text.Lower | status8.py:118 | `message.lower()`, one character at a time; no further contract of its own, characterised by `LowerCases`, `LowerIdempotent` and `ContainsAnyCase` |
| Text.LowerCases | status8.py:118 | no capital (A to Z, À to Þ except ×) is left in the result; each capital becomes the small letter 32 code points on; every other character is unchanged |
| Text.LowerIdempotent | status8.py:118 | lower-casing twice is lower-casing once, and a text is its own lower case exactly when it holds no capital |
| Text.LowerSlice | status8.py:118 | lower-casing a slice is slicing the lower-cased text |
| Text.ContainsAnyCase | status8.py:118-166 | a text is found in `message.lower()` exactly when some slice of the message lower-cases to it, so a small-letter trigger is found in any mix of upper and lower case |
| Text.Strip | status8.py:94 | `str.strip()`; no contract of its own, characterised by `StripSetIsSlice`, `LogLine.StripSurrounded` and `ContainsAfterStripSet` |
| Text.StripSetIsSlice | status7.py:163 | `strip(chars)` returns the slice between a leading and a trailing run of those characters, and the slice neither starts nor ends with one |
| Text.ContainsAfterStripSet | status7.py:163-164 | a text that neither starts nor ends with a stripped character is found after stripping exactly when it is found before |
| Text.Contains | status8.py:107 | Python's `p in s`; no contract of its own, characterised by `IndexOf`, `ContainsAnyCase` and `RemoveAllAbsent` |
| Text.IndexOf | filter_one_log.py:35 | the leftmost occurrence, found exactly when the text occurs |
| Text.RemoveAll | filter_one_log.py:12 | `str.replace(p, "")` never makes a string longer |
| Text.RemoveAllAbsent | filter_one_log.py:12 | removing a text that does not occur returns the string unchanged |
| Text.LastPiece | status8.py:108 | `split(p)[-1]`: a suffix free of `p`, preceded by an occurrence of `p` when there is one, the whole string otherwise |
| Labels.BaseStatusOf | status8.py:29-38 | `base_status_of` never lengthens a label and is the identity on labels without a "Start "/"End " prefix |
| Labels.BaseOfRender | status8.py:29-38 | `base_status_of` recovers the state name from every label a script stores |
| Labels.RenderInjective | status4.py:162-166 | two labels stored as the same string are the same label, so comparing the strings compares the labels |
| Labels.ClosePrevious | status8.py:53-62 | `end_previous_status` keeps the length and every entry but the last; the last keeps its state, changes only when that state is Productive, Idle or Standby, and is then "End <state>"; nothing changes on an empty list |
| Labels.ClosePreviousIdempotent | status8.py:53-62 | closing twice is closing once |
| Labels.SameBaseDiff | status8.py:40-51 | `compute_time_diff` gives the seconds between the stamps exactly when there is a previous stamp and both labels have the same state outside the excluded ones (Downtime and Off in status7/8, Downtime in status6) |
| Classifier.Triggers | status4.py:113-158 | the cascade shared by all status scripts: a "Start" label opens its state and closes the previous label unless the old state is Downtime; an "End" label closes the old state on its own line and falls back to Standby; a bare label keeps the old state; the carried state is the old one or Productive, Idle or Standby |
| Classifier.ClassifyOffAware | status8.py:125-166 | status7/8: exactly the stripped Close Software line powers off with label and state Off, closing the previous label only when the old state is neither Downtime nor Off; exactly the Start PCB line powers on with label and state Standby and closes nothing |
| Classifier.ClassifyClosedLabel | status6.py:97-138 | status6: Close Software powers off with label "Software Closed" and keeps the state; Start PCB powers on and shows the current state; the carried state is never Off |
| Classifier.StartMarkFirst | status8.py:137-141 | "(0)--start mark!--" wins over every later trigger: label "Start Productive", state Productive, close unless the old state is Downtime |
| Classifier.CuttingClosesProductive | status8.py:143-145 | "End Productive" is shown exactly when "successfully cutting" reaches its branch in the Productive state |
| Classifier.AlarmResetClosesIdle | status8.py:153-155 | "End Idle" is shown exactly when "alarm" and "reset" reach their branch in the Idle state |
| Classifier.NoTriggerRepeats | status7.py:174-176 | a message with no trigger text shows the old state, keeps it and closes nothing |
| Classifier.StopOpensIdle | status8.py:147-151 | "Start Idle" is shown exactly when a stop text (PLC or button) is present and neither a start mark nor a cutting line in the Productive state outranks it |
| Classifier.ErrorIsOneLine | status8.py:164-166 | once the start, cutting, stop, alarm-reset and procession branches fail, the label is Downtime exactly when the message holds "err:" (or the state is already Downtime); a Downtime line restores the old state and never calls `end_previous_status` |
| Classifier.ProcessionIgnoresStrip | status7.py:163-164 | `strip("- ").strip()` cannot change whether "start procession" or "manufacture" is found |
| Classifier.ProcessionTrigger | status7.py:161-168 | after the earlier branches fail, "Start Standby" is shown exactly when the lower-cased message holds both texts |
| LogLine.UpToNewline | status8.py:99 | what `.*` matches: the longest prefix without a line break |
| LogLine.ParseLine | status8.py:93-103 | an accepted line yields a stamp of the form `\d{2}:\d{2}:\d{2}` and a message without a line break |
| LogLine.ParseLineRoundTrip | status8.py:93-103 | a line written as stamp, ":" and message, with whitespace around it, reads back as that stamp and message |
| LogLine.StripSurrounded | status8.py:94 | `strip()` removes exactly the whitespace around a line |
| LogLine.ClockSeconds | status8.py:104 | `strptime("%H:%M:%S")` accepts a stamp only as a time of day, below 86400 seconds |
| LogLine.ClockRoundTrip | status8.py:104 | every time of day is read back from its formatted stamp |
| LogLine.ClockReadBack | status8.py:104 | every accepted stamp is the formatting of the time it reads as |
| LogLine.ClockOfPads | status8.py:104 | hours, minutes and seconds in range read as `h*3600 + m*60 + s` |
| LogLine.ProductId | status8.py:110-112 | `[/\\](\d{8})[_-]` finds an ID exactly when some position matches; the ID is eight digits taken from a matching position |
| LogLine.ProductName | status8.py:108 | the text after the last "SetFileName File:" no longer holds the marker |
| LogLine.UpdateProduct | status8.py:107-115 | without the marker nothing changes; with it the current and last product become the name; an ID found in it becomes the current and last ID; without an ID the current ID becomes "99999999" and the last ID is kept; IDs stay eight digits |
| Calendar.DaysInMonth | status8.py:74 | months have 28 to 31 days; 29 exactly in February of a leap year |
| Calendar.ValidDate | status8.py:74 | the dates `datetime(y, m, d)` accepts; no contract of its own, characterised by `DaysInMonth`, `ParseFileDate` and `FileDateRoundTrip` |
| Calendar.DateAt | status8.py:71 | a match of `(\d{4})\.(\d{1,2})\.(\d{1,2})` at a position gives a year below 10000 and a month and day below 100 |
| Calendar.DateMatch | status8.py:71 | `re.search` finds the leftmost match, and finds none exactly when no position matches |
| Calendar.ParseFileDate | status8.py:71-77 | no match skips the file, a match that `datetime` refuses crashes the script, and otherwise the matched date is valid |
| Calendar.FileDateRoundTrip | status8.py:70-74 | a file named "Y.M.D" for a valid date with a four-digit year yields that date |
| Summary.Row | status8.py:242-248 | one summary row: one cell per requested column, each the seconds booked that day on that state (zero when none) |
| Summary.Summarize | status8.py:242-250 | one row per date that occurs, each as wide as the column list |
| Summary.RowSum | status8.py:242-248 | a row with distinct columns adds up to the seconds of its day booked on those states |
| Summary.RowCoversDay | status8.py:247-248 | when every state booked on a day has a column, the row adds up to the whole day |
| Summary.RowDropsState | status6.py:215-216 | when one booked state has no column, the row adds up to the day minus that state's seconds |
| Summary.SilentStateZero | status4.py:236-237 | a state whose rows carry no seconds has a zero cell |
| Assigned.SplitAtMidnight | status8.py:174-188 | an interval is split in two exactly when it crosses the next midnight; the two pieces are positive and add up to the whole |
| Assigned.Book | status8.py:169-199 | the time-difference block; no contract of its own, characterised by `RecordBooks`, `EmitDates`, `EmitInv` and `NoMidnightSplit` |
| Assigned.Booked | status8.py:169 | the booking test (status6.py:141 without the "Off" clause); no contract of its own, characterised by `RecordBooks`, `PoweredOffUnbooked`, `OffIntervalUnbooked` and `CloseLineUnbooked` |
| Assigned.Record | status8.py:106-209 | one accepted line; no contract of its own, characterised by `RecordInv`, `RecordAppendsOneRow` and `RecordBooks` |
| Assigned.Enter | status8.py:125-166 | the retroactive close, new state and power change; no contract of its own, characterised by `EnterInv` and `RecordAppendsOneRow` |
| Assigned.Emit | status8.py:169-209 | the time-difference block and the appends; no contract of its own, characterised by `EmitInv` and `EmitDates` |
| Assigned.RunLines | status8.py:93-209 | the line loop; no contract of its own, characterised by `RunLinesInv` and `RunLinesDates` |
| Assigned.OpenFile | status8.py:85-90 | the per-file set-up; no contract of its own, characterised by `BaseCarried` |
| Assigned.RunFileOn | status8.py:82-211 | one file; no contract of its own, characterised by `RunFileOnInv`, `EmptyFileSkipped` and `BaseCarried` |
| Assigned.RunFileDated | status8.py:67-211 | one status8.py file; no contract of its own, characterised by `RunFileDatedDates` and `EmptyFileSkipped` |
| Assigned.RunFilesDated | status8.py:67-211 | the status8.py file loop; no contract of its own, characterised by `RunFilesDatedInv`, `RunFilesDatedAppend`, `RunFilesDatedSkipsEmpty` and `Status8Summary` |
| Assigned.RunFilesToday | status7.py:69-222 | the status6.py and status7.py file loop; no contract of its own, characterised by `RunFilesTodayInv`, `RunFilesTodayDates`, `RunFilesTodayAppend` and `RunFilesTodaySkipsEmpty` |
| Assigned.NoMidnightSplit | status8.py:170-176 | with both ends on the file's date the interval is never split |
| Assigned.StepLine | status8.py:93-104 | a blank or unmatched line changes nothing; the script stops exactly when the stamp is refused by `strptime` |
| Assigned.InitialInv | status8.py:11-26 | the globals before the first file satisfy the run invariant |
| Assigned.ClassifyEmits | status8.py:117-166 | from a carried state the cascade shows only labels the script can store and carries only Productive, Idle, Standby (and Off in status7/8), never Downtime |
| Assigned.ClosePreviousEmits | status8.py:53-62 | the retroactive close keeps every stored label storable |
| Assigned.ProductInv | status8.py:107-115 | the product block keeps the invariant |
| Assigned.EnterInv | status8.py:125-166 | the retroactive close, the new state and the power change keep the invariant |
| Assigned.EmitInv | status8.py:169-209 | the time-difference block and the appends keep the nine lists aligned and every booked row well formed |
| Assigned.RecordInv | status8.py:106-209 | an accepted line keeps the invariant |
| Assigned.StepLineInv | status8.py:93-209 | every line keeps the invariant |
| Assigned.RunLinesInv | status8.py:93-209 | the line loop keeps the invariant |
| Assigned.RunFileOnInv | status8.py:82-211 | one file keeps the invariant |
| Assigned.RunFilesDatedInv | status8.py:67-211 | a status8.py run keeps the invariant: the carried state is never Downtime, the lists stay aligned, booked rows carry a state other than Off and less than a day |
| Assigned.RunFilesTodayInv | status7.py:69-222 | the same for status7.py and status6.py; status6.py never carries or books Off |
| Assigned.RecordAppendsOneRow | status7.py:210-215 | an accepted line appends one stamp, message and label; of the older labels only the last can change, and it keeps its state |
| Assigned.RecordBooks | status8.py:169-199 | a line books `now - previous` seconds on the previous label's state exactly when power is on after the line, the file has an earlier line, and (status7/8) that line is not "Off"; otherwise it books nothing; the row is dated with the file's date |
| Assigned.CloseLineUnbooked | status6.py:97-101 | the Close Software line is never booked, because power is cleared before the check |
| Assigned.PoweredOffUnbooked | status8.py:169 | while power is off, no line but Start PCB is booked |
| Assigned.StartPcbBooksClosedInterval | status6.py:141-165 | in status6.py the Start PCB line after a Close Software line books the switched-off interval on "Software Closed" |
| Assigned.OffIntervalUnbooked | status7.py:179 | in status7/8 the interval after an "Off" line is never booked |
| Assigned.EmitDates | status8.py:189-198 | the second half of a line appends rows dated with the file's date only |
| Assigned.StepLineDates | status8.py:192-198 | a line appends only rows dated with the file's date and keeps the earlier dates |
| Assigned.RunLinesDates | status8.py:93-209 | the lines of a file append only rows dated with the file's date |
| Assigned.RunFilesTodayDates | status7.py:71 | status6.py and status7.py date every row with the run date |
| Assigned.RunFileDatedDates | status8.py:71-83 | a file without a date in its name is skipped with all state unchanged, an impossible date stops the script, and otherwise the file's rows carry the date in its name |
| Assigned.RunFilesDatedAppend | status8.py:67-211 | running two batches of files one after the other is running their concatenation |
| Assigned.RunFilesTodayAppend | status7.py:69-222 | the same for status6.py and status7.py |
| Assigned.EmptyFileSkipped | status8.py:71-83 | an empty file is skipped with all state unchanged; in status8.py an impossible date in its name still stops the script, since the date is read first |
| Assigned.RunFilesTodaySkipsEmpty | status7.py:75-76 | leaving the empty files out of a status6.py or status7.py run does not change it |
| Assigned.RunFilesDatedSkipsEmpty | status8.py:82-83 | leaving out the empty files whose names hold no impossible date does not change a status8.py run |
| Assigned.BaseCarried | status8.py:85-90 | the base a file ends in is written back (status8.py:211) and the next file starts from it, as current base and previous label, with no previous stamp, the last product, and the columns and power flag unchanged |
| LogLine.NonEmptyFiles | status8.py:82-83 | the files that hold a line, and only those, in order |
| AssignedLog.Log.constructor | status8.py:11-26 | the nine empty lists and the initial globals |
| AssignedLog.Log.EndPreviousStatus | status8.py:53-62 | rewrites the stored labels to `ClosePrevious` of the old ones |
| AssignedLog.Log.UpdateProductFields | status8.py:107-115 | the product fields become `UpdateProduct` of the old ones |
| AssignedLog.Log.BookInterval | status8.py:169-199 | appends the time-difference rows that `Book` describes |
| AssignedLog.Log.ProcessLine | status8.py:93-104 | ends in `StepLine` of the old state; `ok` is false exactly when the script would stop |
| AssignedLog.Log.RecordLine | status8.py:106-209 | ends in `Record` of the old state |
| AssignedLog.Log.EnterLine | status8.py:125-166 | ends in `Enter` of the old state |
| AssignedLog.Log.EmitLine | status8.py:169-209 | ends in `Emit` of the old state |
| AssignedLog.Log.AppendRow | status8.py:201-206 | appends the stamp, message, label, product and ID |
| AssignedLog.Log.ProcessFile | status7.py:75-222 | ends in `RunFileOn` of the old state |
| AssignedLog.Log.OpenFileFields | status8.py:85-90 | ends in `OpenFile` of the old state |
| AssignedLog.Log.ProcessLines | status8.py:93-209 | ends in `RunLines` of the old state |
| AssignedLog.Log.ProcessFileDated | status8.py:67-211 | ends in `RunFileDated` of the old state |
| AssignedLog.Log.ProcessFilesDated | status8.py:67-211 | ends in `RunFilesDated` of the old state |
| AssignedLog.Log.ProcessFilesToday | status7.py:69-222 | ends in `RunFilesToday` of the old state |
| AssignedSummary.BookedEntries | status8.py:237-241 | the summary holds one entry per booked row, so no more entries than rows |
| AssignedSummary.BookedEntriesInOrder | status8.py:237-241 | every booked row (non-null `Assigned_Base` and `Assigned_Time_Seconds`) appears, with its date, state and seconds, after the booked rows before it |
| AssignedSummary.BookedEntriesOnly | status8.py:237-241 | every entry of the summary is the date, state and seconds of a booked row |
| AssignedSummary.Grouped | status8.py:214-226 | the data frame can be built exactly when the lists are aligned |
| AssignedSummary.BookedEntriesFrom | status8.py:237-241 | each kept row has a state its script can book on and a date that occurs in the lists |
| AssignedSummary.OffAwareSummary | status8.py:236-250 | under the invariant the Off column is zero and every row adds up to everything booked that day |
| AssignedSummary.FiveColumnRow | status8.py:247-248 | a day with nothing on Off has a zero Off cell and a complete sum |
| AssignedSummary.ClosedLabelSummary | status6.py:204-218 | status6.py's rows add up to the day minus the time booked on "Software Closed" |
| AssignedSummary.FourColumnRow | status6.py:215-216 | the four-column row drops only "Software Closed" |
| AssignedSummary.Status8Summary | status8.py:236-256 | a status8.py run ends in a summary with a zero Off column and complete day sums |
| AssignedSummary.RunTodaySummaryOneDay | status7.py:71 | a status6.py or status7.py run has at most one summary row, the run date |
| AssignedSummary.Status7Summary | status7.py:253-273 | a status7.py run: at most one row, zero Off column, complete sum |
| AssignedSummary.Status6Summary | status6.py:204-224 | a status6.py run: at most one row, adding up to the day minus "Software Closed" |
| Backward.Diff | status4.py:161-169 | a stored difference is only taken against a last row of the same state |
| Backward.BeginInv | status4.py:10-23 | the globals before the first file satisfy the run invariant |
| Backward.CloseKeepsDiff | status4.py:162-166 | the retroactive close just before the difference never changes the state it compares |
| Backward.DiffInRun | status4.py:161-169 | in a run the difference is `now` minus the last stamp exactly when a last row exists with the new label's state, and that state is neither Standby nor Downtime |
| Backward.RecordBack | status4.py:95-178 | one accepted line; no contract of its own, characterised by `RecordBackInv` and `RecordBackDiff` |
| Backward.EnterBack | status4.py:112-158 | the retroactive close and new state; no contract of its own, characterised by `EnterBackInv` |
| Backward.EmitBack | status4.py:160-178 | the difference and the appends; no contract of its own, characterised by `EmitBackInv`, `EmitBackLast` and `StepBackDates` |
| Backward.StepBack | status4.py:83-178 | one raw line; no contract of its own, characterised by `StepNeverRereadsBadly` and `StepBackDates` |
| Backward.RunLinesBack | status4.py:83-181 | the line loop; no contract of its own, characterised by `RunLinesBackInv` and `RunLinesBackDates` |
| Backward.OpenBack | status4.py:74-81 | the per-file set-up; no contract of its own, characterised by `OpenBackInv` and `BaseCarriedBack` |
| Backward.RunFileBack | status4.py:66-185 | one file; no contract of its own, characterised by `RunFileBackDates`, `EmptyFileBackSkipped` and `BaseCarriedBack` |
| Backward.RunFilesBack | status4.py:66-185 | the file loop; no contract of its own, characterised by `RunFilesBackInv`, `RunFilesBackDates`, `RunFilesBackSkipsEmpty` and `Status4Summary` |
| Backward.EnterBackInv | status4.py:112-158 | the retroactive close and the new state keep the invariant |
| Backward.EmitBackInv | status4.py:160-178 | the difference and the appends keep the invariant, and never fail in a run |
| Backward.RecordBackInv | status4.py:95-178 | an accepted line keeps the invariant |
| Backward.StepNeverRereadsBadly | status4.py:83-93 | in a run a line stops the script only when its own stamp is refused |
| Backward.OpenBackInv | status4.py:74-81 | opening a file keeps the invariant and the rows |
| Backward.RunLinesBackInv | status4.py:83-181 | the line loop keeps the invariant |
| Backward.RunFilesBackInv | status4.py:66-185 | a run keeps the invariant: the carried state is never Downtime, only Productive and Idle rows carry a difference |
| Backward.FirstRowOfFileDiff | status4.py:161-169 | the first line of a file that repeats the carried state gets its clock time minus that of the previous file's last row |
| Backward.CarriedDiff | status4.py:162-169 | a line keeping the last row's state (other than Standby) stores the seconds since that row |
| Backward.RecordBackDiff | status9.py:125-132 | the stored difference is the rule applied to the rows as they were before the line |
| Backward.EmitBackLast | status9.py:134-140 | the appends store that difference in the new last row |
| Backward.NegativeDiffAcrossFiles | status4.py:11-16 | a file ending at 23:00:00 in Productive followed by a file whose first line is at 01:00:00 stores -79200 seconds |
| Backward.StepBackDates | status4.py:171-178 | a line appends at most one row, dated with the name of the file being read, and keeps the earlier dates |
| Backward.RunLinesBackDates | status4.py:83-181 | the lines of a file append only rows dated with its name and keep the earlier dates |
| Backward.RunFileBackDates | status4.py:66-185 | the rows a file appends carry its name (status4.py:177), and earlier rows keep theirs |
| Backward.RunFilesBackDates | status4.py:66-185 | a run keeps the rows it started with and dates every new row with the name of one of its files |
| Backward.EmptyFileBackSkipped | status4.py:71-72 | an empty file is skipped with all state unchanged |
| Backward.RunFilesBackSkipsEmpty | status4.py:71-72 | leaving the empty files out of a run does not change it |
| Backward.BaseCarriedBack | status4.py:74-81 | the base a file ends in is written back (status4.py:185) and the next file starts from it, with the last product, and the rows unchanged |
| Backward.RowEntries | status9.py:175-176 | every row is grouped by file name and state; a null difference counts as zero seconds |
| Backward.GroupedBack | status9.py:148-156 | the data frame can be built exactly when the lists are aligned |
| Backward.BackwardSummary4 | status4.py:219-239 | the Standby and Downtime columns are always zero and every row adds up to its day |
| Backward.BackwardSummary9 | status9.py:173-185 | the Standby, Downtime and Off columns are always zero and every row adds up to its day |
| Backward.FourColumnRowBack | status4.py:236-237 | the four-column row of such rows |
| Backward.FiveColumnRowBack | status9.py:184-185 | the five-column row of such rows |
| Backward.Status4Summary | status4.py:219-246 | a status4.py run ends in such a summary |
| Backward.Status9Summary | status9.py:173-193 | a status9.py run ends in such a summary |
| BackwardLog.Log.constructor | status4.py:10-23 | the seven empty lists and the initial globals |
| BackwardLog.Log.EndPreviousStatus | status4.py:50-61 | rewrites the stored labels to `ClosePrevious` of the old ones |
| BackwardLog.Log.UpdateProductFields | status9.py:78-86 | the product fields become `UpdateProduct` of the old ones |
| BackwardLog.Log.ProcessLine | status4.py:83-93 | ends in `StepBack` of the old state; `ok` is false exactly when the script would stop |
| BackwardLog.Log.RecordLine | status4.py:95-181 | ends in `RecordBack` of the old state |
| BackwardLog.Log.EnterLine | status4.py:112-158 | ends in `EnterBack` of the old state |
| BackwardLog.Log.EmitLine | status4.py:160-178 | ends in `EmitBack` of the old state |
| BackwardLog.Log.ProcessFile | status4.py:66-185 | ends in `RunFileBack` of the old state |
| BackwardLog.Log.ProcessLines | status4.py:83-181 | ends in `RunLinesBack` of the old state |
| BackwardLog.Log.ProcessFiles | status9.py:51-145 | ends in `RunFilesBack` of the old state |
| Flags.Maintain | Dataframe.py:80-89 | the else branch keeps the flags and the product; with no flag raised it changes nothing |
| Flags.Effect | Dataframe.py:48-89 | a raising branch shows its flag's state, a lowering branch keeps the status and lowers its flag; the product is untouched |
| Flags.NewProduct | Dataframe.py:44-45 | the product changes only on a "SetFileName File:" line, to the text after the last marker |
| Flags.DataframeMove | Dataframe.py:48-89 | the Dataframe.py branch a message takes; no contract of its own, characterised by `Effect`, `EffectInv`, `DataframeClearingBranches`, `StopBeforeError` and `StopButtonOnlyHolds` |
| Flags.FilterMove | filter_one_log.py:63-97 | the filter_one_log.py branch a kept message takes; no contract of its own, characterised by `FilterStartMarkBranchDead`, `FilterUntriggeredHolds`, `StopButtonOnlyHolds` and `LowerStandbyPersists` |
| Flags.DataframeLine | Dataframe.py:43-89 | one matched Dataframe.py line; no contract of its own, characterised by `DataframeLineInv` and `StopBeforeError` |
| Flags.FilterLine | filter_one_log.py:58-97 | one kept filter_one_log.py line; no contract of its own, characterised by `FilterLineInv`, `FilterUntriggeredHolds` and `LowerStandbyPersists` |
| Flags.StartsInv | Dataframe.py:25-30 | both set-ups satisfy the flag invariant |
| Flags.EffectInv | Dataframe.py:48-89 | every branch keeps at most one flag raised, naming the status |
| Flags.MaintainIsIdentity | Dataframe.py:80-89 | under the invariant the else branch changes nothing |
| Flags.DataframeLineInv | Dataframe.py:44-89 | a Dataframe.py line keeps the invariant |
| Flags.FilterLineInv | filter_one_log.py:59-97 | a kept filter_one_log.py line keeps the invariant |
| Flags.DataframeClearingBranches | Dataframe.py:52-74 | "Successfully Cutting", "Alarm reset" and "Start Mark" while standby only lower a flag and keep the status |
| Flags.StopBeforeError | Dataframe.py:55-79 | a message with "Stop PLC!" and "Err:" yields Idle with only the idle flag |
| Flags.FilterStartMarkBranchDead | filter_one_log.py:63-82 | every "Start Mark" message takes the first branch, so the standby-lowering branch is never taken |
| Flags.FilterUntriggeredHolds | filter_one_log.py:88-97 | a kept message without trigger text changes only the product |
| Flags.StopButtonOnlyHolds | filter_one_log.py:33-97 | the stop-button message changes nothing in filter_one_log.py and yields Idle in Dataframe.py |
| Flags.LowerStandbyPersists | filter_one_log.py:19-97 | the lower-case "standby" survives every line whose text sets no status |
| FlagRuns.DataframeStepInv | Dataframe.py:33-96 | every line keeps the lists aligned, the flag invariant and named statuses |
| FlagRuns.DataframeStep | Dataframe.py:33-96 | one raw line; no contract of its own, characterised by `DataframeStepInv` and `DataframeLinesGrowth` |
| FlagRuns.DataframeLines | Dataframe.py:33-96 | the line loop; no contract of its own, characterised by `DataframeLinesInv` and `DataframeLinesGrowth` |
| FlagRuns.DataframeFile | Dataframe.py:17-96 | one file, from the reset tracker; no contract of its own, characterised by `DataframeFileInv` and `DataframeFileReset` |
| FlagRuns.DataframeFiles | Dataframe.py:17-96 | the file loop; no contract of its own, characterised by `DataframeFilesInv` and `DataframeFilesConcat` |
| FlagRuns.FilterStep | filter_one_log.py:46-103 | one raw line; no contract of its own, characterised by `FilterStepEffect` |
| FlagRuns.FilterLines | filter_one_log.py:46-103 | the line loop; no contract of its own, characterised by `FilterLinesInv` and `LowerStandbyRun` |
| FlagRuns.Keep | filter_one_log.py:29-43 | the filter of line 57; no contract of its own, characterised by `KeptMessages` and `FollowedByOccurrences` |
| FlagRuns.FollowedBy | filter_one_log.py:35 | `a.*b`; no contract of its own, characterised by `FollowedByOccurrences` |
| FlagRuns.LogName | filter_one_log.py:12 | the log name of a path; no contract of its own, characterised by `LogNameFacts` |
| FlagRuns.DataframeLinesInv | Dataframe.py:33-96 | the line loop keeps that invariant |
| FlagRuns.DataframeLinesGrowth | Dataframe.py:92-96 | each timestamped line appends exactly one row dated with the file's stem, and nothing else is appended |
| FlagRuns.DataframeFileInv | Dataframe.py:17-96 | one file keeps the invariant and appends one row per timestamped line |
| FlagRuns.DataframeFilesInv | Dataframe.py:17-96 | the file loop keeps the invariant |
| FlagRuns.DataframeFileReset | Dataframe.py:24-30 | a file's rows do not depend on earlier files: they are appended after them unchanged |
| FlagRuns.DataframeFilesConcat | Dataframe.py:17-96 | the rows of a run are the rows of each file on its own, in the order read |
| FlagRuns.FollowedByOccurrences | filter_one_log.py:35 | `a.*b` matches exactly when some `a` is followed by some `b` |
| FlagRuns.FilterStepEffect | filter_one_log.py:46-103 | a line that is not kept changes nothing, not even the product; a kept line appends one row; the product changes only on a kept marker line |
| FlagRuns.FilterLinesInv | filter_one_log.py:46-103 | the lists stay aligned, the flag invariant holds, and the row count grows by the number of kept lines |
| FlagRuns.LowerStandbyRun | filter_one_log.py:19-97 | while no kept line sets a status, every row shows the lower-case "standby" |
| FlagRuns.KeptMessages | filter_one_log.py:29-43 | a marker line under "D:\Production Program\" and the stop-button message are kept |
| FlagRuns.LogNameFacts | filter_one_log.py:12 | the log name never holds a "/"; a path without "/" and ".log" is its own name |
| FlagScans.DataframeScan.constructor | Dataframe.py:9-14 | the five empty lists and the first file's set-up |
| FlagScans.DataframeScan.ResetTracking | Dataframe.py:24-30 | the tracking variables return to "Idle", no product, no flag; the lists are kept |
| FlagScans.DataframeScan.Classify | Dataframe.py:47-89 | the cascade leaves the status and flags as `Effect` of the branch `DataframeMove` picks |
| FlagScans.DataframeScan.ProcessLine | Dataframe.py:33-41 | ends in `DataframeStep` of the old state |
| FlagScans.DataframeScan.RecordLine | Dataframe.py:43-96 | the tracking variables become `DataframeLine` of the old ones and one row is appended |
| FlagScans.DataframeScan.ProcessFile | Dataframe.py:17-96 | ends in `DataframeFile` of the old state |
| FlagScans.DataframeScan.ProcessFiles | Dataframe.py:17-96 | ends in `DataframeFiles` of the old state |
| FlagScans.FilterScan.constructor | filter_one_log.py:12-26 | the log name of the path and the initial lower-case "standby" |
| FlagScans.FilterScan.Classify | filter_one_log.py:62-97 | the cascade leaves the status and flags as `Effect` of the branch `FilterMove` picks |
| FlagScans.FilterScan.ProcessLine | filter_one_log.py:46-57 | ends in `FilterStep` of the old state |
| FlagScans.FilterScan.RecordLine | filter_one_log.py:58-103 | the tracking variables become `FilterLine` of the old ones and one row is appended |
| FlagScans.FilterScan.ProcessLines | filter_one_log.py:46-103 | ends in `FilterLines` of the old state |

## Left out

- File discovery and reading are not modelled: `glob`, `sorted`, `open` with latin-1 decoding, and `readlines`. Files are given as a stem and a sequence of lines, already in the order the script would read them. Dataframe.py's `glob` order is unsorted, so that order is a parameter.
- `datetime.today()` in status6.py and status7.py is a parameter (`today`).
- RunFilesToday, RunTodaySummaryOneDay: status6.py:55 and status7.py:71 read `datetime.today()` once per file, but the model reads the clock once per run. A run that crosses midnight between two files would date the later files with the next day and give two summary rows; the model does not capture that.
- The data-frame construction, `print`, `set_option`, the Excel slice and the CSV/Excel export are not modelled.
- The summary sums integer seconds. The `/3600` hours and `round(2)` are floating point and are left out, and so is the order of the summary rows (pandas sorts the date strings). The summary is keyed by the date value; `strftime("%d/%m/%Y")` is one-to-one on valid dates.
- `compute_time_diff` is never called by any script. It is modelled on its own as `SameBaseDiff` and used nowhere else.
- `previous_timestamp` and `previous_label` in status4.py and status9.py are assigned but never read, so they are not modelled.
- Lower-casing and `isspace` are modelled for characters below U+0100, the range latin-1 decoding yields.
- filter_one_log.py's `Date` column is one value broadcast over all rows: `FilterScan.logFilename`.
- filter_one_log.py's input path is a Windows path split on "/"; `LogName` is modelled for any path, without the hard-coded one.
- filter_one_log.py's keep patterns are modelled as literal texts, plus one `a.*b` pattern. The pattern `\(0\)--Marking Completed\)` is a literal, as written.
- In the sixth keep pattern `.*` does not cross a line break. The model ignores that, because a matched message never holds one.
- Book: the status8.py midnight split (status8.py:176-188) appends two entries each to `assigned_bases`, `assigned_time_diffs` and `dates`, but only one to `time_diffs` and to the five row lists. `Book` models those lengths. Its second date is the file date again, while the script writes `curr_full`'s date, the next day. The branch can never fire (`NoMidnightSplit`), so the misaligned lists and the next-day date never reach a summary.
- File_to_SQL.py, status1.py and the product-ID grouping table are not part of this model.
