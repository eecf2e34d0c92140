/** status4.py and status9.py: the same trigger cascade as the other
    scripts but no power handling, and a time difference booked on the
    current row, computed backwards against the last row appended so far
    (`statuses[-1]`, `timestamps[-1]`), which may belong to the previous
    file. Each row is dated with its file's name. Here the rows are
    values; `BackwardLog` keeps them in a mutable object. */
module Backward {
  import opened Options
  import opened Text
  import opened Labels
  import opened Classifier
  import opened LogLine
  import opened Summary

  /** The seven lists the scripts append to. */
  datatype Rows = Rows(
    timestamps: seq<string>, messages: seq<string>, statuses: seq<Label>,
    products: seq<string>, productIds: seq<string>, timeDiffs: seq<Option<int>>,
    dates: seq<string>)

  /** The lists, the state carried from file to file (`global_base_status`,
      and `last_product`, `last_product_id` inside `product`) and the state
      of the file being read, whose name dates its rows. */
  datatype BackState = BackState(rows: Rows, globalBase: Status, product: Product, currentBase: Status, fileName: string)

  const NoRows := Rows([], [], [], [], [], [], [])

  const Begin := BackState(NoRows, Standby, Product("", DefaultProductId, "", DefaultProductId), Standby, "")

  /** The time-difference block, on the labels after any retroactive
      close: the seconds since the last stored row when its base equals
      the new label's and that base is neither Standby nor Downtime. The
      stored time stamp is read again with `strptime`; None where that
      raises (which a run never reaches, see `StepNeverRereadsBadly`). */
  function Diff(statuses: seq<Label>, timestamps: seq<string>, l: Label, now: nat): (r: Option<Option<int>>)
    ensures r.Some? && r.value.Some? ==> |statuses| > 0 && Last(statuses).status == l.status
                                         && l.status != Standby && l.status != Downtime
  {
    if |statuses| == 0 then Some(None)
    else if Last(statuses).status == l.status && l.status != Fallback && l.status != Downtime then
      if |timestamps| == 0 || !IsStamp(Last(timestamps)) then None
      else
        match ClockSeconds(Last(timestamps))
        case None => None
        case Some(prev) => Some(Some(now - prev))
    else Some(None)
  }

  /** One accepted line: the product block, the cascade, the difference
      and the appends. */
  function RecordBack(s: BackState, stamp: string, message: string, now: nat): Option<BackState> {
    ApplyBack(s.(product := UpdateProduct(s.product, message)), stamp, message, now, Triggers(s.currentBase, message))
  }

  function ApplyBack(s: BackState, stamp: string, message: string, now: nat, t: Transition): Option<BackState> {
    EmitBack(EnterBack(s, t), stamp, message, now, t.newLabel)
  }

  /** The retroactive close and the new base. */
  function EnterBack(s: BackState, t: Transition): BackState {
    var statuses := if t.closePrevious then ClosePrevious(s.rows.statuses) else s.rows.statuses;
    s.(rows := s.rows.(statuses := statuses), currentBase := t.newBase)
  }

  /** The time difference against the last stored row, then the appends. */
  function EmitBack(e: BackState, stamp: string, message: string, now: nat, l: Label): Option<BackState> {
    match Diff(e.rows.statuses, e.rows.timestamps, l, now)
    case None => None
    case Some(diff) =>
      var r := e.rows;
      Some(e.(rows := Rows(r.timestamps + [stamp], r.messages + [message], r.statuses + [l],
                           r.products + [e.product.current], r.productIds + [e.product.currentId],
                           r.timeDiffs + [diff], r.dates + [e.fileName])))
  }

  /** One raw line: skipped when blank or without the `HH:MM:SS:` prefix;
      None where `strptime` raises. */
  function StepBack(s: BackState, raw: string): Option<BackState> {
    match ParseLine(raw)
    case None => Some(s)
    case Some(p) =>
      match ClockSeconds(p.stamp)
      case None => None
      case Some(now) => RecordBack(s, p.stamp, p.message, now)
  }

  function RunLinesBack(s: BackState, lines: seq<string>): Option<BackState>
    decreases |lines|
  {
    if lines == [] then Some(s)
    else
      match StepBack(s, lines[0])
      case None => None
      case Some(next) => RunLinesBack(next, lines[1..])
  }

  /** The per-file set-up: the carried base and product, the file's name. */
  function OpenBack(s: BackState, name: string): BackState {
    s.(currentBase := s.globalBase,
       product := Product(s.product.last, s.product.lastId, s.product.last, s.product.lastId),
       fileName := name)
  }

  /** One file: skipped when empty, otherwise its lines from the carried
      state, and the final base carried on. */
  function RunFileBack(s: BackState, f: LogFile): Option<BackState> {
    if f.lines == [] then Some(s)
    else
      match RunLinesBack(OpenBack(s, f.stem), f.lines)
      case None => None
      case Some(e) => Some(e.(globalBase := e.currentBase))
  }

  /** status4.py and status9.py over files in sorted order. */
  function RunFilesBack(s: BackState, files: seq<LogFile>): Option<BackState>
    decreases |files|
  {
    if files == [] then Some(s)
    else
      match RunFileBack(s, files[0])
      case None => None
      case Some(next) => RunFilesBack(next, files[1..])
  }

  // ---------------------------------------------------------------------
  // The invariant of a run

  predicate Aligned(r: Rows) {
    |r.messages| == |r.timestamps| && |r.statuses| == |r.timestamps| && |r.products| == |r.timestamps|
    && |r.productIds| == |r.timestamps| && |r.timeDiffs| == |r.timestamps| && |r.dates| == |r.timestamps|
  }

  /** The labels these scripts store: no "Off", no "Software Closed". */
  predicate Emitted(l: Label) {
    Storable(l) && l.status != Off && l.status != SoftwareClosed
  }

  /** A stored row: a label the scripts emit, a time stamp `strptime`
      reads, and a difference only on Productive or Idle, shorter than a
      day either way. */
  predicate GoodRow(r: Rows, i: nat)
    requires Aligned(r) && i < |r.timestamps|
  {
    Emitted(r.statuses[i]) && IsStamp(r.timestamps[i]) && ClockSeconds(r.timestamps[i]).Some?
    && IsProductId(r.productIds[i])
    && (r.timeDiffs[i].Some? ==>
          (r.statuses[i].status == Productive || r.statuses[i].status == Idle)
          && -DaySeconds < r.timeDiffs[i].value < DaySeconds)
  }

  predicate BackInv(s: BackState) {
    Aligned(s.rows) && IsOpenable(s.globalBase) && IsOpenable(s.currentBase)
    && IsProductId(s.product.currentId) && IsProductId(s.product.lastId)
    && forall i :: 0 <= i < |s.rows.timestamps| ==> GoodRow(s.rows, i)
  }

  lemma BeginInv()
    ensures BackInv(Begin)
  {
    assert DefaultProductId[0] == '9';
  }

  /** The retroactive close never changes the base compared by the
      difference block, so the difference is the same before and after it. */
  lemma CloseKeepsDiff(statuses: seq<Label>, timestamps: seq<string>, l: Label, now: nat)
    ensures Diff(ClosePrevious(statuses), timestamps, l, now) == Diff(statuses, timestamps, l, now)
  {
  }

  /** In a run the stored stamp is always read back, and the difference is
      the backward same-base rule: the seconds since the last row exactly
      when there is one, its base is the new label's, and that base is
      neither Standby nor Downtime. */
  lemma {:induction false} DiffInRun(r: Rows, l: Label, now: nat)
    requires Aligned(r) && forall i :: 0 <= i < |r.timestamps| ==> GoodRow(r, i)
    ensures Diff(r.statuses, r.timestamps, l, now).Some?
    ensures var d := Diff(r.statuses, r.timestamps, l, now).value;
            (d.Some? <==> |r.statuses| > 0 && Last(r.statuses).status == l.status
                          && l.status != Standby && l.status != Downtime)
            && (d.Some? ==> d.value == now - ClockSeconds(Last(r.timestamps)).value)
  {
    if |r.statuses| > 0 {
      assert GoodRow(r, |r.timestamps| - 1);
    }
  }

  /** The retroactive close keeps every stored row good. */
  lemma {:induction false} EnterBackInv(s: BackState, t: Transition)
    requires BackInv(s) && IsOpenable(t.newBase)
    ensures BackInv(EnterBack(s, t))
  {
    var e := EnterBack(s, t);
    forall i | 0 <= i < |e.rows.timestamps| ensures GoodRow(e.rows, i) {
      assert GoodRow(s.rows, i);
    }
  }

  /** The appends keep the invariant when the label is one the scripts
      emit and the time is a valid clock time. */
  lemma {:induction false} EmitBackInv(e: BackState, stamp: string, message: string, now: nat, l: Label)
    requires BackInv(e) && Emitted(l) && IsStamp(stamp) && ClockSeconds(stamp) == Some(now)
    ensures EmitBack(e, stamp, message, now, l).Some?
    ensures BackInv(EmitBack(e, stamp, message, now, l).value)
  {
    DiffInRun(e.rows, l, now);
    var r := EmitBack(e, stamp, message, now, l).value;
    assert |r.rows.timestamps| == |e.rows.timestamps| + 1;
    forall i | 0 <= i < |r.rows.timestamps| ensures GoodRow(r.rows, i) {
      if i < |e.rows.timestamps| {
        assert GoodRow(e.rows, i);
      }
    }
  }

  /** One accepted line with a valid clock time keeps the invariant, and
      re-reading the stored stamp never stops the script. */
  lemma {:induction false} RecordBackInv(s: BackState, stamp: string, message: string, now: nat)
    requires BackInv(s) && IsStamp(stamp) && ClockSeconds(stamp) == Some(now)
    ensures RecordBack(s, stamp, message, now).Some?
    ensures BackInv(RecordBack(s, stamp, message, now).value)
  {
    var t := Triggers(s.currentBase, message);
    var s1 := s.(product := UpdateProduct(s.product, message));
    EnterBackInv(s1, t);
    EmitBackInv(EnterBack(s1, t), stamp, message, now, t.newLabel);
  }

  /** In a run, a line stops the script only when its own clock time is
      refused; the stored stamp read again never is. */
  lemma {:induction false} StepNeverRereadsBadly(s: BackState, raw: string)
    requires BackInv(s)
    ensures StepBack(s, raw).None? <==> ParseLine(raw).Some? && ClockSeconds(ParseLine(raw).value.stamp).None?
    ensures StepBack(s, raw).Some? ==> BackInv(StepBack(s, raw).value)
  {
    match ParseLine(raw)
    case None =>
    case Some(p) =>
      if ClockSeconds(p.stamp).Some? {
        RecordBackInv(s, p.stamp, p.message, ClockSeconds(p.stamp).value);
      }
  }

  /** Opening a file keeps the invariant. */
  lemma OpenBackInv(s: BackState, name: string)
    requires BackInv(s)
    ensures BackInv(OpenBack(s, name)) && OpenBack(s, name).rows == s.rows
  {
  }

  lemma {:induction false} RunLinesBackInv(s: BackState, lines: seq<string>)
    requires BackInv(s) && RunLinesBack(s, lines).Some?
    ensures BackInv(RunLinesBack(s, lines).value)
    decreases |lines|
  {
    if lines != [] {
      StepNeverRereadsBadly(s, lines[0]);
      RunLinesBackInv(StepBack(s, lines[0]).value, lines[1..]);
    }
  }

  /** A whole run keeps the invariant: the carried base is never
      Downtime, no label is "Off", and only Productive and Idle rows carry
      a difference. */
  lemma {:induction false} RunFilesBackInv(s: BackState, files: seq<LogFile>)
    requires BackInv(s) && RunFilesBack(s, files).Some?
    ensures BackInv(RunFilesBack(s, files).value)
    decreases |files|
  {
    if files != [] {
      if files[0].lines != [] {
        RunLinesBackInv(OpenBack(s, files[0].stem), files[0].lines);
      }
      RunFilesBackInv(RunFileBack(s, files[0]).value, files[1..]);
    }
  }

  // ---------------------------------------------------------------------
  // Dates and the file loop

  /** A line appends at most one row, dated with the name of the file
      being read, and keeps the earlier dates. */
  lemma StepBackDates(s: BackState, raw: string)
    requires StepBack(s, raw).Some?
    ensures var e := StepBack(s, raw).value;
            e.fileName == s.fileName && (e.rows.dates == s.rows.dates || e.rows.dates == s.rows.dates + [s.fileName])
  {
  }

  /** The lines of a file append only rows dated with the file's name and
      keep the earlier dates. */
  lemma {:induction false} RunLinesBackDates(s: BackState, lines: seq<string>)
    requires RunLinesBack(s, lines).Some?
    ensures var e := RunLinesBack(s, lines).value;
            e.fileName == s.fileName && |s.rows.dates| <= |e.rows.dates|
            && e.rows.dates[..|s.rows.dates|] == s.rows.dates
            && forall i :: |s.rows.dates| <= i < |e.rows.dates| ==> e.rows.dates[i] == s.fileName
    decreases |lines|
  {
    if lines != [] {
      var next := StepBack(s, lines[0]).value;
      StepBackDates(s, lines[0]);
      RunLinesBackDates(next, lines[1..]);
      var e := RunLinesBack(next, lines[1..]).value;
      var d0, d1, d2 := s.rows.dates, next.rows.dates, e.rows.dates;
      assert d2[..|d0|] == d2[..|d1|][..|d0|];
      forall i | |d0| <= i < |d2| ensures d2[i] == s.fileName {
        if i < |d1| {
          assert d2[i] == d2[..|d1|][i];
        }
      }
    }
  }

  /** One file: its rows carry its name (status4.py:177), and the rows of
      earlier files keep theirs. */
  lemma RunFileBackDates(s: BackState, f: LogFile)
    requires RunFileBack(s, f).Some?
    ensures var e := RunFileBack(s, f).value;
            |s.rows.dates| <= |e.rows.dates| && e.rows.dates[..|s.rows.dates|] == s.rows.dates
            && forall i :: |s.rows.dates| <= i < |e.rows.dates| ==> e.rows.dates[i] == f.stem
  {
    if f.lines != [] {
      RunLinesBackDates(OpenBack(s, f.stem), f.lines);
    }
  }

  /** The names of a batch of files. */
  function Stems(files: seq<LogFile>): set<string> {
    set j | 0 <= j < |files| :: files[j].stem
  }

  /** A run keeps the rows it started with and dates every row it appends
      with the name of one of its files. */
  lemma {:induction false} RunFilesBackDates(s: BackState, files: seq<LogFile>)
    requires RunFilesBack(s, files).Some?
    ensures var e := RunFilesBack(s, files).value;
            |s.rows.dates| <= |e.rows.dates| && e.rows.dates[..|s.rows.dates|] == s.rows.dates
            && forall i :: |s.rows.dates| <= i < |e.rows.dates| ==> e.rows.dates[i] in Stems(files)
    decreases |files|
  {
    if files != [] {
      var next := RunFileBack(s, files[0]).value;
      RunFileBackDates(s, files[0]);
      RunFilesBackDates(next, files[1..]);
      var e := RunFilesBack(next, files[1..]).value;
      var d0, d1, d2 := s.rows.dates, next.rows.dates, e.rows.dates;
      assert d2[..|d0|] == d2[..|d1|][..|d0|];
      forall i | |d0| <= i < |d2| ensures d2[i] in Stems(files) {
        if i < |d1| {
          assert d2[i] == d2[..|d1|][i] == files[0].stem;
        } else {
          var j :| 0 <= j < |files[1..]| && files[1..][j].stem == d2[i];
          assert files[j + 1].stem == d2[i];
        }
      }
    }
  }

  /** An empty file is skipped: nothing changes, not even the name that
      dates the rows or the carried product. */
  lemma EmptyFileBackSkipped(s: BackState, stem: string)
    ensures RunFileBack(s, LogFile(stem, [])) == Some(s)
  {
  }

  /** Empty files can be left out of a run without changing it. */
  lemma {:induction false} RunFilesBackSkipsEmpty(s: BackState, files: seq<LogFile>)
    ensures RunFilesBack(s, files) == RunFilesBack(s, NonEmptyFiles(files))
    decreases |files|
  {
    if files != [] {
      if files[0].lines == [] {
        assert NonEmptyFiles(files) == NonEmptyFiles(files[1..]);
        assert RunFilesBack(s, files) == RunFilesBack(s, files[1..]);
        RunFilesBackSkipsEmpty(s, files[1..]);
      } else {
        assert NonEmptyFiles(files) == [files[0]] + NonEmptyFiles(files[1..]);
        match RunFileBack(s, files[0])
        case None =>
        case Some(next) => RunFilesBackSkipsEmpty(next, files[1..]);
      }
    }
  }

  /** The base a file ends in is written back to `global_base_status`
      (status4.py:185), and the next file starts from it: as its current
      base, with the last product of the file before as its product. The
      rows pass through untouched. */
  lemma BaseCarriedBack(s: BackState, f: LogFile, name: string)
    requires f.lines != [] && RunFileBack(s, f).Some?
    ensures var e := RunLinesBack(OpenBack(s, f.stem), f.lines).value;
            var next := RunFileBack(s, f).value;
            next.globalBase == e.currentBase && next.rows == e.rows
            && OpenBack(next, name).currentBase == e.currentBase
            && OpenBack(next, name).product.current == e.product.last
            && OpenBack(next, name).product.currentId == e.product.lastId
            && OpenBack(next, name).rows == e.rows
  {
  }

  /** The first line of a file that repeats the carried state compares
      against the last row of the previous file, so its difference is the
      clock time of this line minus that of the other file's last line: a
      file that begins earlier in the day than the previous one ended gets
      a negative difference. */
  lemma FirstRowOfFileDiff(s: BackState, name: string, stamp: string, message: string, now: nat)
    requires BackInv(s) && IsStamp(stamp) && ClockSeconds(stamp) == Some(now)
    requires |s.rows.statuses| > 0 && Last(s.rows.statuses) == Bare(s.globalBase) && s.globalBase != Standby
    requires Triggers(s.globalBase, message).newLabel == Bare(s.globalBase)
    ensures RecordBack(OpenBack(s, name), stamp, message, now).Some?
    ensures Last(RecordBack(OpenBack(s, name), stamp, message, now).value.rows.timeDiffs)
              == Some(now - ClockSeconds(Last(s.rows.timestamps)).value)
  {
    var o := OpenBack(s, name);
    OpenBackInv(s, name);
    RecordBackDiff(o, stamp, message, now);
    CarriedDiff(s, now);
  }

  /** A line that keeps the base of the last stored row, an openable base
      other than Standby, stores the seconds since that row. */
  lemma CarriedDiff(s: BackState, now: nat)
    requires BackInv(s)
    requires |s.rows.statuses| > 0 && Last(s.rows.statuses) == Bare(s.globalBase) && s.globalBase != Standby
    ensures IsStamp(Last(s.rows.timestamps)) && ClockSeconds(Last(s.rows.timestamps)).Some?
    ensures Diff(s.rows.statuses, s.rows.timestamps, Bare(s.globalBase), now)
              == Some(Some(now - ClockSeconds(Last(s.rows.timestamps)).value))
  {
    assert GoodRow(s.rows, |s.rows.timestamps| - 1);
    DiffInRun(s.rows, Bare(s.globalBase), now);
  }

  /** The difference an accepted line stores is the rule applied to the
      rows as they were before the line: the retroactive close does not
      change it. */
  lemma {:induction false} RecordBackDiff(s: BackState, stamp: string, message: string, now: nat)
    requires BackInv(s) && IsStamp(stamp) && ClockSeconds(stamp) == Some(now)
    ensures RecordBack(s, stamp, message, now).Some?
    ensures Last(RecordBack(s, stamp, message, now).value.rows.timeDiffs)
              == Diff(s.rows.statuses, s.rows.timestamps, Triggers(s.currentBase, message).newLabel, now).value
  {
    var t := Triggers(s.currentBase, message);
    var e := EnterBack(s.(product := UpdateProduct(s.product, message)), t);
    CloseKeepsDiff(s.rows.statuses, s.rows.timestamps, t.newLabel, now);
    DiffInRun(s.rows, t.newLabel, now);
    EmitBackLast(e, stamp, message, now, t.newLabel);
  }

  /** The appends store the difference as the new last row's. */
  lemma EmitBackLast(e: BackState, stamp: string, message: string, now: nat, l: Label)
    requires Diff(e.rows.statuses, e.rows.timestamps, l, now).Some?
    ensures EmitBack(e, stamp, message, now, l).Some?
    ensures Last(EmitBack(e, stamp, message, now, l).value.rows.timeDiffs) == Diff(e.rows.statuses, e.rows.timestamps, l, now).value
  {
  }

  /** The same with concrete rows: a file ending at 23:00:00 in the
      Productive state, then a file whose first line at 01:00:00 says
      nothing; the new row's difference is -79200 seconds. */
  lemma NegativeDiffAcrossFiles()
    ensures var s := BackState(Rows(["23:00:00"], [""], [Bare(Productive)], [""], [DefaultProductId], [None], ["a"]),
                               Productive, Product("", DefaultProductId, "", DefaultProductId), Productive, "a");
            RecordBack(OpenBack(s, "b"), "01:00:00", "", 3600).Some?
            && Last(RecordBack(OpenBack(s, "b"), "01:00:00", "", 3600).value.rows.timeDiffs) == Some(-79200)
  {
    var s := BackState(Rows(["23:00:00"], [""], [Bare(Productive)], [""], [DefaultProductId], [None], ["a"]),
                       Productive, Product("", DefaultProductId, "", DefaultProductId), Productive, "a");
    assert DefaultProductId[0] == '9';
    assert GoodRow(s.rows, 0);
    NoTriggerRepeats(Productive, "");
    FirstRowOfFileDiff(s, "b", "01:00:00", "", 3600);
  }

  // ---------------------------------------------------------------------
  // The summary

  /** Every row is grouped, by its file name and base; a null difference
      counts as no time (status9.py fills it with 0, status4.py's sum
      skips it). */
  function RowEntries(r: Rows, n: nat): (es: seq<Entry<string>>)
    requires Aligned(r) && n <= |r.timestamps|
    ensures |es| == n
    ensures forall k :: 0 <= k < n ==> es[k].date == r.dates[k] && es[k].base == r.statuses[k].status
    ensures forall k :: 0 <= k < n ==> es[k].seconds == (if r.timeDiffs[k].Some? then r.timeDiffs[k].value else 0)
  {
    if n == 0 then []
    else
      var k := n - 1;
      RowEntries(r, k) + [Entry(r.dates[k], r.statuses[k].status, if r.timeDiffs[k].Some? then r.timeDiffs[k].value else 0)]
  }

  /** The rows the summary groups; None where the lists differ in length
      and `pd.DataFrame` refuses them. */
  function GroupedBack(r: Rows): (g: Option<seq<Entry<string>>>)
    ensures g.Some? <==> Aligned(r)
  {
    if Aligned(r) then Some(RowEntries(r, |r.timestamps|)) else None
  }

  /** status4.py's summary: the Standby and Downtime columns are always
      zero, and every row adds up to everything its day booked. */
  lemma BackwardSummary4(s: BackState)
    requires BackInv(s)
    ensures GroupedBack(s.rows).Some?
    ensures var es := GroupedBack(s.rows).value;
            var t := Summarize(es, FourColumns);
            forall d :: d in t ==> t[d][1] == 0 && t[d][2] == 0 && Sum(t[d]) == DayTotal(es, d)
  {
    var es := GroupedBack(s.rows).value;
    forall k | 0 <= k < |es| ensures EntryFacts(es[k]) {
      assert GoodRow(s.rows, k);
    }
    forall d | d in Summarize(es, FourColumns)
      ensures Summarize(es, FourColumns)[d][1] == 0 && Summarize(es, FourColumns)[d][2] == 0
              && Sum(Summarize(es, FourColumns)[d]) == DayTotal(es, d)
    {
      FourColumnRowBack(es, d);
    }
  }

  /** status9.py's summary: the Standby, Downtime and Off columns are
      always zero, and every row adds up to everything its day booked. */
  lemma BackwardSummary9(s: BackState)
    requires BackInv(s)
    ensures GroupedBack(s.rows).Some?
    ensures var es := GroupedBack(s.rows).value;
            var t := Summarize(es, FiveColumns);
            forall d :: d in t ==> t[d][1] == 0 && t[d][2] == 0 && t[d][4] == 0 && Sum(t[d]) == DayTotal(es, d)
  {
    var es := GroupedBack(s.rows).value;
    forall k | 0 <= k < |es| ensures EntryFacts(es[k]) {
      assert GoodRow(s.rows, k);
    }
    forall d | d in Summarize(es, FiveColumns)
      ensures Summarize(es, FiveColumns)[d][1] == 0 && Summarize(es, FiveColumns)[d][2] == 0
              && Summarize(es, FiveColumns)[d][4] == 0 && Sum(Summarize(es, FiveColumns)[d]) == DayTotal(es, d)
    {
      FiveColumnRowBack(es, d);
    }
  }

  /** What a grouped row of these scripts satisfies: a base with a column
      in status4.py's table, and time only on Productive and Idle. */
  predicate EntryFacts(e: Entry<string>) {
    e.base in FourColumns && (e.base == Standby || e.base == Downtime ==> e.seconds == 0)
  }

  lemma FourColumnRowBack(es: seq<Entry<string>>, d: string)
    requires forall k :: 0 <= k < |es| ==> EntryFacts(es[k])
    ensures Row(es, d, FourColumns)[1] == 0 && Row(es, d, FourColumns)[2] == 0
    ensures Sum(Row(es, d, FourColumns)) == DayTotal(es, d)
  {
    SilentStateZero(es, d, Standby);
    SilentStateZero(es, d, Downtime);
    assert Distinct(FourColumns);
    RowCoversDay(es, d, FourColumns);
  }

  lemma FiveColumnRowBack(es: seq<Entry<string>>, d: string)
    requires forall k :: 0 <= k < |es| ==> EntryFacts(es[k])
    ensures Row(es, d, FiveColumns)[1] == 0 && Row(es, d, FiveColumns)[2] == 0 && Row(es, d, FiveColumns)[4] == 0
    ensures Sum(Row(es, d, FiveColumns)) == DayTotal(es, d)
  {
    SilentStateZero(es, d, Standby);
    SilentStateZero(es, d, Downtime);
    SilentStateZero(es, d, Off);
    assert Distinct(FiveColumns);
    RowCoversDay(es, d, FiveColumns);
  }

  /** A status4.py run from the start ends in such a summary. */
  lemma Status4Summary(files: seq<LogFile>)
    requires RunFilesBack(Begin, files).Some?
    ensures GroupedBack(RunFilesBack(Begin, files).value.rows).Some?
    ensures var es := GroupedBack(RunFilesBack(Begin, files).value.rows).value;
            var t := Summarize(es, FourColumns);
            forall d :: d in t ==> t[d][1] == 0 && t[d][2] == 0 && Sum(t[d]) == DayTotal(es, d)
  {
    BeginInv();
    RunFilesBackInv(Begin, files);
    BackwardSummary4(RunFilesBack(Begin, files).value);
  }

  /** A status9.py run from the start ends in such a summary. */
  lemma Status9Summary(files: seq<LogFile>)
    requires RunFilesBack(Begin, files).Some?
    ensures GroupedBack(RunFilesBack(Begin, files).value.rows).Some?
    ensures var es := GroupedBack(RunFilesBack(Begin, files).value.rows).value;
            var t := Summarize(es, FiveColumns);
            forall d :: d in t ==> t[d][1] == 0 && t[d][2] == 0 && t[d][4] == 0 && Sum(t[d]) == DayTotal(es, d)
  {
    BeginInv();
    RunFilesBackInv(Begin, files);
    BackwardSummary9(RunFilesBack(Begin, files).value);
  }
}
