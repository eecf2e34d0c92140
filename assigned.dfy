/** The scripts that book the interval between two accepted lines on the
    state of the earlier line (the `Assigned_Base` / `Assigned_Time_Seconds`
    columns): status8.py, which dates each file from its name, and status7.py
    and status6.py, which date every row with the day the script runs. Here
    the rows are values; `AssignedLog` keeps them in a mutable object. */
module Assigned {
  import opened Options
  import opened Text
  import opened Labels
  import opened Classifier
  import opened LogLine
  import opened Calendar

  /** status6.py labels Close Software lines "Software Closed" and books
      intervals whenever power is on; status7.py and status8.py switch to
      Off and do not book the interval that follows an "Off" line. */
  datatype Script = Status6 | Status78

  /** The nine lists the scripts append to, in their own order. */
  datatype Columns = Columns(
    timestamps: seq<string>, messages: seq<string>, statuses: seq<Label>,
    products: seq<string>, productIds: seq<string>, timeDiffs: seq<Option<int>>,
    dates: seq<Date>, assignedBases: seq<Option<Status>>, assignedSeconds: seq<Option<int>>)

  /** Everything the file and line loops read or write: the columns, the
      state carried from file to file (`global_base_status`,
      `machine_powered_on`, `last_product`, `last_product_id`, the latter two
      inside `product`) and the state of the file being read. */
  datatype Snapshot = Snapshot(
    cols: Columns,
    globalBase: Status, poweredOn: bool, product: Product,
    currentBase: Status, previousSeconds: Option<nat>, previousLabel: Label, fileDate: Date)

  const NoColumns := Columns([], [], [], [], [], [], [], [], [])

  /** The module globals before the first file. The file-level variables
      are set when a file is opened; `fileDate` is a placeholder until then. */
  const Initial := Snapshot(NoColumns, Standby, true, Product("", DefaultProductId, "", DefaultProductId),
                            Standby, None, Bare(Standby), Date(1, 1, 1))

  function Classify(script: Script, backup: Status, message: string): Transition {
    if script == Status6 then ClassifyClosedLabel(backup, message) else ClassifyOffAware(backup, message)
  }

  function ApplyPower(on: bool, p: Power): bool {
    match p
    case Keep => on
    case PowerOff => false
    case PowerOn => true
  }

  /** Whether the interval that ends at the current line is booked: power is
      on (after this line's own power change), the file already has an
      accepted line, and for status7/8 that line is not labelled "Off". */
  predicate Booked(script: Script, poweredOn: bool, previousSeconds: Option<nat>, previousLabel: Label) {
    poweredOn && previousSeconds.Some? && (script == Status6 || previousLabel != Bare(Off))
  }

  /** The `prev_full < midnight < curr_full` split of an interval from `prev`
      to `cur` seconds after the start of the earlier line's day: the part
      before and the part after the next midnight, or the whole. */
  function SplitAtMidnight(prev: int, cur: int): (pieces: seq<int>)
    ensures |pieces| == 2 <==> prev < DaySeconds < cur
    ensures |pieces| == 1 ==> pieces[0] == cur - prev
    ensures |pieces| == 2 ==> pieces[0] + pieces[1] == cur - prev && pieces[0] > 0 && pieces[1] > 0
  {
    if prev < DaySeconds < cur then [DaySeconds - prev, cur - DaySeconds] else [cur - prev]
  }

  /** Both ends of an interval are clock times combined with the same file
      date, so the midnight split never happens. */
  lemma NoMidnightSplit(prev: nat, now: nat)
    requires now < DaySeconds
    ensures SplitAtMidnight(prev, now) == [now - prev]
  {
  }

  /** The time-difference block: append the pieces of a booked interval with
      the earlier line's base, or one row of nothing. */
  function Book(c: Columns, booked: bool, date: Date, prev: nat, now: nat, base: Status): Columns {
    if booked then
      var pieces := SplitAtMidnight(prev, now);
      if |pieces| == 2 then
        c.(timeDiffs := c.timeDiffs + [Some(pieces[0] + pieces[1])], dates := c.dates + [date, date],
           assignedBases := c.assignedBases + [Some(base), Some(base)],
           assignedSeconds := c.assignedSeconds + [Some(pieces[0]), Some(pieces[1])])
      else
        c.(timeDiffs := c.timeDiffs + [Some(pieces[0])], dates := c.dates + [date],
           assignedBases := c.assignedBases + [Some(base)], assignedSeconds := c.assignedSeconds + [Some(pieces[0])])
    else
      c.(timeDiffs := c.timeDiffs + [None], dates := c.dates + [date],
         assignedBases := c.assignedBases + [None], assignedSeconds := c.assignedSeconds + [None])
  }

  /** One accepted line with time stamp `stamp` (`now` seconds after
      midnight) and message `message`. */
  function Record(script: Script, s: Snapshot, stamp: string, message: string, now: nat): Snapshot {
    Apply(script, s, stamp, message, now, Classify(script, s.currentBase, message))
  }

  /** The effect of an accepted line once the cascade has produced `t`:
      the product block, then the two halves below. */
  function Apply(script: Script, s: Snapshot, stamp: string, message: string, now: nat, t: Transition): Snapshot {
    Emit(script, Enter(s.(product := UpdateProduct(s.product, message)), t), stamp, message, now, t.newLabel)
  }

  /** The retroactive close, the new base and the power change. */
  function Enter(s: Snapshot, t: Transition): Snapshot {
    var statuses := if t.closePrevious then ClosePrevious(s.cols.statuses) else s.cols.statuses;
    s.(cols := s.cols.(statuses := statuses), poweredOn := ApplyPower(s.poweredOn, t.power), currentBase := t.newBase)
  }

  /** The second half: the time-difference block on the previous line's
      time and label, the appends, and the line becoming the previous one. */
  function Emit(script: Script, e: Snapshot, stamp: string, message: string, now: nat, l: Label): Snapshot {
    var c := Book(e.cols, Booked(script, e.poweredOn, e.previousSeconds, e.previousLabel), e.fileDate,
                  if e.previousSeconds.Some? then e.previousSeconds.value else 0, now, e.previousLabel.status);
    var c' := c.(timestamps := c.timestamps + [stamp], messages := c.messages + [message],
                 statuses := c.statuses + [l], products := c.products + [e.product.current],
                 productIds := c.productIds + [e.product.currentId]);
    e.(cols := c', previousSeconds := Some(now), previousLabel := l)
  }

  /** One raw line: skipped when it is blank or lacks the `HH:MM:SS:`
      prefix, fatal (None) when `strptime` refuses its clock time. */
  function StepLine(script: Script, s: Snapshot, raw: string): (r: Option<Snapshot>)
    ensures ParseLine(raw).None? ==> r == Some(s)
    ensures r.None? <==> ParseLine(raw).Some? && ClockSeconds(ParseLine(raw).value.stamp).None?
  {
    match ParseLine(raw)
    case None => Some(s)
    case Some(p) =>
      match ClockSeconds(p.stamp)
      case None => None
      case Some(now) => Some(Record(script, s, p.stamp, p.message, now))
  }

  function RunLines(script: Script, s: Snapshot, lines: seq<string>): Option<Snapshot>
    decreases |lines|
  {
    if lines == [] then Some(s)
    else
      match StepLine(script, s, lines[0])
      case None => None
      case Some(next) => RunLines(script, next, lines[1..])
  }

  /** The per-file initialisation: the carried base, no previous line, the
      carried product. */
  function OpenFile(s: Snapshot, date: Date): Snapshot {
    s.(currentBase := s.globalBase, previousSeconds := None, previousLabel := Bare(s.globalBase),
       product := Product(s.product.last, s.product.lastId, s.product.last, s.product.lastId),
       fileDate := date)
  }

  /** One file dated `date`: an empty file is skipped, otherwise its lines
      run from the carried state and the final base is carried on. */
  function RunFileOn(script: Script, s: Snapshot, date: Date, lines: seq<string>): Option<Snapshot> {
    if lines == [] then Some(s)
    else
      match RunLines(script, OpenFile(s, date), lines)
      case None => None
      case Some(e) => Some(e.(globalBase := e.currentBase))
  }

  /** status8.py's handling of one file. */
  function RunFileDated(s: Snapshot, f: LogFile): Option<Snapshot> {
    match ParseFileDate(f.stem)
    case NoDate => Some(s)
    case BadDate => None
    case DateOk(d) => RunFileOn(Status78, s, d, f.lines)
  }

  /** status8.py over files already in sorted order. */
  function RunFilesDated(s: Snapshot, files: seq<LogFile>): Option<Snapshot>
    decreases |files|
  {
    if files == [] then Some(s)
    else
      match RunFileDated(s, files[0])
      case None => None
      case Some(next) => RunFilesDated(next, files[1..])
  }

  /** status6.py (script Status6) and status7.py (script Status78) over
      files in sorted order, every file dated with the run date `today`. */
  function RunFilesToday(script: Script, s: Snapshot, today: Date, files: seq<LogFile>): Option<Snapshot>
    decreases |files|
  {
    if files == [] then Some(s)
    else
      match RunFileOn(script, s, today, files[0].lines)
      case None => None
      case Some(next) => RunFilesToday(script, next, today, files[1..])
  }

  // ---------------------------------------------------------------------
  // The invariant of a run

  predicate Aligned(c: Columns) {
    |c.messages| == |c.timestamps| && |c.statuses| == |c.timestamps| && |c.products| == |c.timestamps|
    && |c.productIds| == |c.timestamps| && |c.timeDiffs| == |c.timestamps| && |c.dates| == |c.timestamps|
    && |c.assignedBases| == |c.timestamps| && |c.assignedSeconds| == |c.timestamps|
  }

  /** The states a script can carry: status6.py only Productive, Idle and
      Standby; status7/8 also Off. Never Downtime. */
  predicate Carried(script: Script, b: Status) {
    IsOpenable(b) || (script == Status78 && b == Off)
  }

  /** The labels a script can store. */
  predicate Emits(script: Script, l: Label) {
    Storable(l) && (if script == Status6 then l.status != Off else l.status != SoftwareClosed)
  }

  /** The states an interval can be booked on: never Off, and in
      status7/8 never "Software Closed", which only status6.py emits. */
  predicate Assignable(script: Script, b: Status) {
    b != Off && (script == Status78 ==> b != SoftwareClosed)
  }

  /** A booked row has a base and seconds together, its time difference
      equals its seconds, the interval is shorter than a day, and its base
      is one the script can book on. */
  predicate BookedRow(script: Script, c: Columns, i: nat)
    requires Aligned(c) && i < |c.timestamps|
  {
    (c.assignedBases[i].Some? <==> c.assignedSeconds[i].Some?)
    && c.timeDiffs[i] == c.assignedSeconds[i]
    && (c.assignedSeconds[i].Some? ==> -DaySeconds < c.assignedSeconds[i].value < DaySeconds)
    && (c.assignedBases[i].Some? ==> Assignable(script, c.assignedBases[i].value))
  }

  predicate Inv(script: Script, s: Snapshot) {
    Aligned(s.cols)
    && Carried(script, s.globalBase) && Carried(script, s.currentBase)
    && (s.previousSeconds.Some? ==> s.previousSeconds.value < DaySeconds)
    && Emits(script, s.previousLabel)
    && (forall i :: 0 <= i < |s.cols.statuses| ==> Emits(script, s.cols.statuses[i]))
    && IsProductId(s.product.currentId) && IsProductId(s.product.lastId)
    && (forall i :: 0 <= i < |s.cols.productIds| ==> IsProductId(s.cols.productIds[i]))
    && (forall i :: 0 <= i < |s.cols.timestamps| ==> BookedRow(script, s.cols, i))
  }

  lemma InitialInv(script: Script)
    ensures Inv(script, Initial)
  {
    assert DefaultProductId[0] == '9';
  }

  /** Every label the classifier of a script produces from a carried state
      is one the script can store. */
  lemma {:induction false} ClassifyEmits(script: Script, backup: Status, message: string)
    requires Carried(script, backup)
    ensures Emits(script, Classify(script, backup, message).newLabel)
    ensures Carried(script, Classify(script, backup, message).newBase)
  {
    var t := Classify(script, backup, message);
    if Strip(message) != CloseSoftware && Strip(message) != StartPcb {
      assert t == Triggers(backup, message);
    }
  }

  /** Closing the previous label keeps every stored label storable. */
  lemma ClosePreviousEmits(script: Script, statuses: seq<Label>)
    requires forall i :: 0 <= i < |statuses| ==> Emits(script, statuses[i])
    ensures forall i :: 0 <= i < |statuses| ==> Emits(script, ClosePrevious(statuses)[i])
  {
  }

  /** The product block keeps the invariant. */
  lemma ProductInv(script: Script, s: Snapshot, message: string)
    requires Inv(script, s)
    ensures Inv(script, s.(product := UpdateProduct(s.product, message)))
  {
  }

  /** The retroactive close and a carried new base keep the invariant. */
  lemma {:induction false} EnterInv(script: Script, s: Snapshot, t: Transition)
    requires Inv(script, s) && Carried(script, t.newBase)
    ensures Inv(script, Enter(s, t))
  {
    ClosePreviousEmits(script, s.cols.statuses);
    var e := Enter(s, t);
    forall i | 0 <= i < |e.cols.timestamps| ensures BookedRow(script, e.cols, i) {
      assert BookedRow(script, s.cols, i);
    }
  }

  /** The second half of a line keeps the invariant when the new label is
      one the script can store: the nine columns grow together (one row
      each, as the midnight split never fires) and the booked row is well
      formed. */
  lemma {:induction false} EmitInv(script: Script, e: Snapshot, stamp: string, message: string, now: nat, l: Label)
    requires Inv(script, e) && now < DaySeconds && Emits(script, l)
    ensures Inv(script, Emit(script, e, stamp, message, now, l))
  {
    var prev := if e.previousSeconds.Some? then e.previousSeconds.value else 0;
    var booked := Booked(script, e.poweredOn, e.previousSeconds, e.previousLabel);
    var c := Book(e.cols, booked, e.fileDate, prev, now, e.previousLabel.status);
    if booked {
      NoMidnightSplit(prev, now);
      assert e.previousLabel.status != Off;
    }
    var r := Emit(script, e, stamp, message, now, l);
    assert |r.cols.timestamps| == |e.cols.timestamps| + 1;
    forall i | 0 <= i < |r.cols.timestamps| ensures BookedRow(script, r.cols, i) {
      if i < |e.cols.timestamps| {
        assert BookedRow(script, e.cols, i);
      }
    }
    assert forall i :: 0 <= i < |r.cols.statuses| ==> Emits(script, r.cols.statuses[i]);
  }

  /** One accepted line keeps the invariant. */
  lemma {:induction false} RecordInv(script: Script, s: Snapshot, stamp: string, message: string, now: nat)
    requires Inv(script, s) && now < DaySeconds
    ensures Inv(script, Record(script, s, stamp, message, now))
  {
    var t := Classify(script, s.currentBase, message);
    ClassifyEmits(script, s.currentBase, message);
    var s1 := s.(product := UpdateProduct(s.product, message));
    ProductInv(script, s, message);
    EnterInv(script, s1, t);
    EmitInv(script, Enter(s1, t), stamp, message, now, t.newLabel);
  }

  lemma {:induction false} StepLineInv(script: Script, s: Snapshot, raw: string)
    requires Inv(script, s) && StepLine(script, s, raw).Some?
    ensures Inv(script, StepLine(script, s, raw).value)
  {
    match ParseLine(raw)
    case None =>
    case Some(p) =>
      RecordInv(script, s, p.stamp, p.message, ClockSeconds(p.stamp).value);
  }

  lemma {:induction false} RunLinesInv(script: Script, s: Snapshot, lines: seq<string>)
    requires Inv(script, s) && RunLines(script, s, lines).Some?
    ensures Inv(script, RunLines(script, s, lines).value)
    decreases |lines|
  {
    if lines != [] {
      StepLineInv(script, s, lines[0]);
      RunLinesInv(script, StepLine(script, s, lines[0]).value, lines[1..]);
    }
  }

  lemma {:induction false} RunFileOnInv(script: Script, s: Snapshot, date: Date, lines: seq<string>)
    requires Inv(script, s) && RunFileOn(script, s, date, lines).Some?
    ensures Inv(script, RunFileOn(script, s, date, lines).value)
  {
    if lines != [] {
      RunLinesInv(script, OpenFile(s, date), lines);
    }
  }

  /** A whole status8.py run keeps the invariant. */
  lemma {:induction false} RunFilesDatedInv(s: Snapshot, files: seq<LogFile>)
    requires Inv(Status78, s) && RunFilesDated(s, files).Some?
    ensures Inv(Status78, RunFilesDated(s, files).value)
    decreases |files|
  {
    if files != [] {
      match ParseFileDate(files[0].stem)
      case NoDate =>
        RunFilesDatedInv(s, files[1..]);
      case BadDate =>
      case DateOk(d) =>
        RunFileOnInv(Status78, s, d, files[0].lines);
        RunFilesDatedInv(RunFileDated(s, files[0]).value, files[1..]);
    }
  }

  /** A whole status6.py or status7.py run keeps the invariant. */
  lemma {:induction false} RunFilesTodayInv(script: Script, s: Snapshot, today: Date, files: seq<LogFile>)
    requires Inv(script, s) && RunFilesToday(script, s, today, files).Some?
    ensures Inv(script, RunFilesToday(script, s, today, files).value)
    decreases |files|
  {
    if files != [] {
      RunFileOnInv(script, s, today, files[0].lines);
      RunFilesTodayInv(script, RunFileOn(script, s, today, files[0].lines).value, today, files[1..]);
    }
  }

  // ---------------------------------------------------------------------
  // What one accepted line does

  /** An accepted line appends one row to each column; of the rows already
      there only the last label can change, and it keeps its state. */
  lemma {:induction false} RecordAppendsOneRow(script: Script, s: Snapshot, stamp: string, message: string, now: nat)
    requires Inv(script, s) && now < DaySeconds
    ensures var r := Record(script, s, stamp, message, now);
            Aligned(r.cols) && r.cols.timestamps == s.cols.timestamps + [stamp]
            && r.cols.messages == s.cols.messages + [message]
            && |r.cols.statuses| == |s.cols.statuses| + 1
            && (forall i :: 0 <= i < |s.cols.statuses| - 1 ==> r.cols.statuses[i] == s.cols.statuses[i])
            && (|s.cols.statuses| > 0 ==>
                  r.cols.statuses[|s.cols.statuses| - 1].status == s.cols.statuses[|s.cols.statuses| - 1].status)
            && Last(r.cols.statuses) == Classify(script, s.currentBase, message).newLabel
  {
    RecordInv(script, s, stamp, message, now);
  }

  /** The row an accepted line books: the interval since the previous line,
      on the previous line's state, exactly when power is on after this
      line, the file has an earlier line and (status7/8) that line is not
      "Off"; otherwise nothing. The row is dated with the file's date. */
  lemma {:induction false} RecordBooks(script: Script, s: Snapshot, stamp: string, message: string, now: nat)
    requires Inv(script, s) && now < DaySeconds
    ensures var r := Record(script, s, stamp, message, now);
            var on := ApplyPower(s.poweredOn, Classify(script, s.currentBase, message).power);
            |r.cols.assignedBases| == |s.cols.assignedBases| + 1
            && Last(r.cols.dates) == s.fileDate
            && (Booked(script, on, s.previousSeconds, s.previousLabel) ==>
                  Last(r.cols.assignedBases) == Some(s.previousLabel.status)
                  && Last(r.cols.assignedSeconds) == Some(now - s.previousSeconds.value))
            && (!Booked(script, on, s.previousSeconds, s.previousLabel) ==> Last(r.cols.assignedBases) == None && Last(r.cols.assignedSeconds) == None)
  {
    RecordInv(script, s, stamp, message, now);
    if s.previousSeconds.Some? {
      NoMidnightSplit(s.previousSeconds.value, now);
    }
  }

  /** The Close Software line itself is never booked: power is cleared
      before the check. */
  lemma CloseLineUnbooked(script: Script, s: Snapshot, stamp: string, message: string, now: nat)
    requires Inv(script, s) && now < DaySeconds && Strip(message) == CloseSoftware
    ensures Last(Record(script, s, stamp, message, now).cols.assignedBases) == None
  {
    RecordBooks(script, s, stamp, message, now);
  }

  /** While the machine is off, no line but Start PCB is booked. */
  lemma PoweredOffUnbooked(script: Script, s: Snapshot, stamp: string, message: string, now: nat)
    requires Inv(script, s) && now < DaySeconds && !s.poweredOn && Strip(message) != StartPcb
    ensures Last(Record(script, s, stamp, message, now).cols.assignedBases) == None
  {
    RecordBooks(script, s, stamp, message, now);
  }

  /** In status6.py the Start PCB line that follows a Close Software line
      books the switched-off interval on the state "Software Closed". */
  lemma StartPcbBooksClosedInterval(s: Snapshot, stamp: string, message: string, now: nat)
    requires Inv(Status6, s) && now < DaySeconds
    requires s.previousSeconds.Some? && s.previousLabel == Bare(SoftwareClosed)
    requires Strip(message) == StartPcb
    ensures Last(Record(Status6, s, stamp, message, now).cols.assignedBases) == Some(SoftwareClosed)
  {
    RecordBooks(Status6, s, stamp, message, now);
  }

  /** In status7.py and status8.py the interval after an "Off" line is
      never booked, even when the machine was switched on again. */
  lemma OffIntervalUnbooked(s: Snapshot, stamp: string, message: string, now: nat)
    requires Inv(Status78, s) && now < DaySeconds && s.previousLabel == Bare(Off)
    ensures Last(Record(Status78, s, stamp, message, now).cols.assignedBases) == None
  {
    RecordBooks(Status78, s, stamp, message, now);
  }

  // ---------------------------------------------------------------------
  // Dates

  /** The second half of a line appends one or two rows dated with the
      file's date. */
  lemma EmitDates(script: Script, e: Snapshot, stamp: string, message: string, now: nat, l: Label)
    ensures var r := Emit(script, e, stamp, message, now, l);
            r.fileDate == e.fileDate
            && (r.cols.dates == e.cols.dates + [e.fileDate] || r.cols.dates == e.cols.dates + [e.fileDate, e.fileDate])
  {
  }

  /** An accepted line appends rows dated with the file's date only. */
  lemma {:induction false} StepLineDates(script: Script, s: Snapshot, raw: string)
    requires StepLine(script, s, raw).Some?
    ensures var e := StepLine(script, s, raw).value;
            e.fileDate == s.fileDate && |s.cols.dates| <= |e.cols.dates|
            && e.cols.dates[..|s.cols.dates|] == s.cols.dates
            && forall i :: |s.cols.dates| <= i < |e.cols.dates| ==> e.cols.dates[i] == s.fileDate
  {
    match ParseLine(raw)
    case None =>
    case Some(p) =>
      var t := Classify(script, s.currentBase, p.message);
      var e := Enter(s.(product := UpdateProduct(s.product, p.message)), t);
      EmitDates(script, e, p.stamp, p.message, ClockSeconds(p.stamp).value, t.newLabel);
  }

  /** Lines of a file only append rows dated with that file's date. */
  lemma {:induction false} RunLinesDates(script: Script, s: Snapshot, lines: seq<string>)
    requires RunLines(script, s, lines).Some?
    ensures var e := RunLines(script, s, lines).value;
            e.fileDate == s.fileDate && |s.cols.dates| <= |e.cols.dates|
            && e.cols.dates[..|s.cols.dates|] == s.cols.dates
            && forall i :: |s.cols.dates| <= i < |e.cols.dates| ==> e.cols.dates[i] == s.fileDate
    decreases |lines|
  {
    if lines != [] {
      var next := StepLine(script, s, lines[0]).value;
      assert RunLines(script, s, lines) == RunLines(script, next, lines[1..]);
      StepLineDates(script, s, lines[0]);
      RunLinesDates(script, next, lines[1..]);
      var e := RunLines(script, next, lines[1..]).value;
      var d0, d1, d2 := s.cols.dates, next.cols.dates, e.cols.dates;
      assert d2[..|d0|] == d2[..|d1|][..|d0|];
      forall i | |d0| <= i < |d2| ensures d2[i] == s.fileDate {
        if i < |d1| {
          assert d2[i] == d2[..|d1|][i];
        }
      }
    }
  }

  /** status6.py and status7.py date every row with the run date, so all
      booked intervals fall on a single day. */
  lemma {:induction false} RunFilesTodayDates(script: Script, s: Snapshot, today: Date, files: seq<LogFile>)
    requires RunFilesToday(script, s, today, files).Some?
    requires forall i :: 0 <= i < |s.cols.dates| ==> s.cols.dates[i] == today
    ensures var e := RunFilesToday(script, s, today, files).value;
            forall i :: 0 <= i < |e.cols.dates| ==> e.cols.dates[i] == today
    decreases |files|
  {
    if files != [] {
      var lines := files[0].lines;
      if lines != [] {
        RunLinesDates(script, OpenFile(s, today), lines);
        var e := RunLines(script, OpenFile(s, today), lines).value;
        forall i | 0 <= i < |e.cols.dates| ensures e.cols.dates[i] == today {
          if i < |s.cols.dates| {
            assert e.cols.dates[i] == e.cols.dates[..|s.cols.dates|][i];
          }
        }
      }
      RunFilesTodayDates(script, RunFileOn(script, s, today, lines).value, today, files[1..]);
    }
  }

  /** status8.py dates the rows of a file with the date in its name, skips
      a file whose name holds no date, and stops on a date that does not
      exist. */
  lemma RunFileDatedDates(s: Snapshot, f: LogFile)
    ensures ParseFileDate(f.stem).NoDate? ==> RunFileDated(s, f) == Some(s)
    ensures ParseFileDate(f.stem).BadDate? ==> RunFileDated(s, f).None?
    ensures ParseFileDate(f.stem).DateOk? && RunFileDated(s, f).Some? ==>
              var e := RunFileDated(s, f).value;
              |s.cols.dates| <= |e.cols.dates| && e.cols.dates[..|s.cols.dates|] == s.cols.dates
              && forall i :: |s.cols.dates| <= i < |e.cols.dates| ==> e.cols.dates[i] == ParseFileDate(f.stem).date
  {
    if ParseFileDate(f.stem).DateOk? && RunFileDated(s, f).Some? && f.lines != [] {
      RunLinesDates(Status78, OpenFile(s, ParseFileDate(f.stem).date), f.lines);
    }
  }

  // ---------------------------------------------------------------------
  // The file loop

  /** An empty file is skipped with all state unchanged (status8.py:82-83).
      status8.py reads the date in the name first, so an empty file with
      an impossible date still stops the script. */
  lemma EmptyFileSkipped(script: Script, s: Snapshot, date: Date, stem: string)
    ensures RunFileOn(script, s, date, []) == Some(s)
    ensures ParseFileDate(stem).BadDate? <==> RunFileDated(s, LogFile(stem, [])).None?
    ensures !ParseFileDate(stem).BadDate? ==> RunFileDated(s, LogFile(stem, [])) == Some(s)
  {
  }

  /** Empty files can be left out of a status6.py or status7.py run
      without changing it. */
  lemma {:induction false} RunFilesTodaySkipsEmpty(script: Script, s: Snapshot, today: Date, files: seq<LogFile>)
    ensures RunFilesToday(script, s, today, files) == RunFilesToday(script, s, today, NonEmptyFiles(files))
    decreases |files|
  {
    if files != [] {
      if files[0].lines == [] {
        assert NonEmptyFiles(files) == NonEmptyFiles(files[1..]);
        assert RunFilesToday(script, s, today, files) == RunFilesToday(script, s, today, files[1..]);
        RunFilesTodaySkipsEmpty(script, s, today, files[1..]);
      } else {
        assert NonEmptyFiles(files) == [files[0]] + NonEmptyFiles(files[1..]);
        match RunFileOn(script, s, today, files[0].lines)
        case None =>
        case Some(next) => RunFilesTodaySkipsEmpty(script, next, today, files[1..]);
      }
    }
  }

  /** The same for status8.py, for empty files whose name does not hold an
      impossible date. */
  lemma {:induction false} RunFilesDatedSkipsEmpty(s: Snapshot, files: seq<LogFile>)
    requires forall j :: 0 <= j < |files| && files[j].lines == [] ==> !ParseFileDate(files[j].stem).BadDate?
    ensures RunFilesDated(s, files) == RunFilesDated(s, NonEmptyFiles(files))
    decreases |files|
  {
    if files != [] {
      assert forall j :: 0 <= j < |files[1..]| ==> files[1..][j] == files[j + 1];
      if files[0].lines == [] {
        assert NonEmptyFiles(files) == NonEmptyFiles(files[1..]);
        assert RunFilesDated(s, files) == RunFilesDated(s, files[1..]);
        RunFilesDatedSkipsEmpty(s, files[1..]);
      } else {
        assert NonEmptyFiles(files) == [files[0]] + NonEmptyFiles(files[1..]);
        match RunFileDated(s, files[0])
        case None =>
        case Some(next) => RunFilesDatedSkipsEmpty(next, files[1..]);
      }
    }
  }

  /** The base a file ends in is written back to `global_base_status`
      (status8.py:211), and the next file starts from it: as its current
      base and its previous label, with no previous stamp, and with the
      last product of the file before. The columns and the power flag pass
      through untouched. */
  lemma BaseCarried(script: Script, s: Snapshot, date: Date, lines: seq<string>, nextDate: Date)
    requires lines != [] && RunFileOn(script, s, date, lines).Some?
    ensures var e := RunLines(script, OpenFile(s, date), lines).value;
            var next := RunFileOn(script, s, date, lines).value;
            var o := OpenFile(next, nextDate);
            next.globalBase == e.currentBase && next.cols == e.cols && next.poweredOn == e.poweredOn
            && o.currentBase == e.currentBase && o.previousLabel == Bare(e.currentBase) && o.previousSeconds.None?
            && o.product.current == e.product.last && o.product.currentId == e.product.lastId
            && o.cols == e.cols && o.poweredOn == e.poweredOn && o.fileDate == nextDate
  {
  }

  // ---------------------------------------------------------------------
  // Runs compose

  /** Running two batches of files one after the other is running their
      concatenation: the carried state is all that passes between them. */
  lemma {:induction false} RunFilesDatedAppend(s: Snapshot, first: seq<LogFile>, second: seq<LogFile>)
    ensures RunFilesDated(s, first + second) ==
              match RunFilesDated(s, first)
              case None => None
              case Some(m) => RunFilesDated(m, second)
    decreases |first|
  {
    if first != [] {
      assert (first + second)[0] == first[0];
      assert (first + second)[1..] == first[1..] + second;
      match RunFileDated(s, first[0])
      case None =>
      case Some(next) => RunFilesDatedAppend(next, first[1..], second);
    } else {
      assert first + second == second;
    }
  }

  lemma {:induction false} RunFilesTodayAppend(script: Script, s: Snapshot, today: Date, first: seq<LogFile>, second: seq<LogFile>)
    ensures RunFilesToday(script, s, today, first + second) ==
              match RunFilesToday(script, s, today, first)
              case None => None
              case Some(m) => RunFilesToday(script, m, today, second)
    decreases |first|
  {
    if first != [] {
      assert (first + second)[0] == first[0];
      assert (first + second)[1..] == first[1..] + second;
      match RunFileOn(script, s, today, first[0].lines)
      case None =>
      case Some(next) => RunFilesTodayAppend(script, next, today, first[1..], second);
    } else {
      assert first + second == second;
    }
  }
}
