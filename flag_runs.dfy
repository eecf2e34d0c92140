/** The loops of Dataframe.py and filter_one_log.py around the flag-based
    classifier: the rows they append, Dataframe.py's files with their
    per-file reset, and filter_one_log.py's keep-filter and log name. */
module FlagRuns {
  import opened Options
  import opened Text
  import opened Labels
  import opened LogLine
  import opened Flags

  /** The four lists both scripts append to: `timestamps`, `log_messages`,
      `products` and `statuses`. */
  datatype Frame = Frame(timestamps: seq<string>, messages: seq<string>, products: seq<string>, statuses: seq<Shown>)

  const NoRows := Frame([], [], [], [])

  predicate Aligned(r: Frame) {
    |r.messages| == |r.timestamps| && |r.products| == |r.timestamps| && |r.statuses| == |r.timestamps|
  }

  /** The appends of one line, with the product and status after it. */
  function Append(r: Frame, stamp: string, message: string, t: Tracker): Frame {
    Frame(r.timestamps + [stamp], r.messages + [message], r.products + [t.product], r.statuses + [t.status])
  }

  /** The rows of `a` followed by those of `b`. */
  function Join(a: Frame, b: Frame): Frame {
    Frame(a.timestamps + b.timestamps, a.messages + b.messages, a.products + b.products, a.statuses + b.statuses)
  }

  /** The number of lines the time-stamp pattern matches. */
  function Stamped(lines: seq<string>): nat {
    if lines == [] then 0
    else (if ParseLine(lines[0]).Some? then 1 else 0) + Stamped(lines[1..])
  }

  // ---------------------------------------------------------------- Dataframe.py

  /** Dataframe.py's state: the `dates` list, the other four lists, and the
      tracking variables of the file being read. */
  datatype DatedPass = DatedPass(dates: seq<string>, rows: Frame, tracker: Tracker)

  const DataframeBegin := DatedPass([], NoRows, FileStart)

  /** One raw line of the file named `stem`. */
  function DataframeStep(p: DatedPass, stem: string, raw: string): DatedPass {
    match ParseLine(raw)
    case None => p
    case Some(x) =>
      var t := DataframeLine(p.tracker, x.message);
      DatedPass(p.dates + [stem], Append(p.rows, x.stamp, x.message, t), t)
  }

  function DataframeLines(p: DatedPass, stem: string, lines: seq<string>): DatedPass
    decreases |lines|
  {
    if lines == [] then p else DataframeLines(DataframeStep(p, stem, lines[0]), stem, lines[1..])
  }

  /** One file: the tracking variables are set up afresh, then its lines. */
  function DataframeFile(p: DatedPass, f: LogFile): DatedPass {
    DataframeLines(p.(tracker := FileStart), f.stem, f.lines)
  }

  /** The files in the order `glob` yields them. */
  function DataframeFiles(p: DatedPass, files: seq<LogFile>): DatedPass
    decreases |files|
  {
    if files == [] then p else DataframeFiles(DataframeFile(p, files[0]), files[1..])
  }

  /** The lists are aligned, the flags keep their invariant, and every
      status shown is a state name: Dataframe.py never shows the
      lower-case "standby". */
  predicate DatedInv(p: DatedPass) {
    Aligned(p.rows) && |p.dates| == |p.rows.timestamps|
    && FlagInv(p.tracker) && p.tracker.status.Named?
    && forall i :: 0 <= i < |p.rows.statuses| ==> p.rows.statuses[i].Named? && Flaggable(p.rows.statuses[i])
  }

  /** `n` copies of `x`. */
  function Repeat<T>(x: T, n: nat): (r: seq<T>)
    ensures |r| == n && forall i :: 0 <= i < n ==> r[i] == x
  {
    if n == 0 then [] else [x] + Repeat(x, n - 1)
  }

  /** `q` has `p`'s rows, then `n` more, all dated `stem`. */
  predicate DatedGrowth(p: DatedPass, q: DatedPass, stem: string, n: nat) {
    q.dates == p.dates + Repeat(stem, n) && |q.rows.timestamps| == |p.rows.timestamps| + n
  }

  lemma DataframeStepInv(p: DatedPass, stem: string, raw: string)
    requires DatedInv(p)
    ensures DatedInv(DataframeStep(p, stem, raw))
  {
    if ParseLine(raw).Some? {
      var m := ParseLine(raw).value.message;
      DataframeLineInv(p.tracker, m);
      var u := p.tracker.(product := NewProduct(p.tracker.product, m));
      assert DataframeLine(p.tracker, m) == Effect(u, DataframeMove(u.active.standby, m));
    }
  }

  /** The invariant holds after every line. */
  lemma {:induction false} DataframeLinesInv(p: DatedPass, stem: string, lines: seq<string>)
    requires DatedInv(p)
    ensures DatedInv(DataframeLines(p, stem, lines))
    decreases |lines|
  {
    if lines != [] {
      DataframeStepInv(p, stem, lines[0]);
      DataframeLinesInv(DataframeStep(p, stem, lines[0]), stem, lines[1..]);
    }
  }

  /** Each timestamped line appends exactly one row, dated with the file's
      stem; other lines append nothing. */
  lemma {:induction false} DataframeLinesGrowth(p: DatedPass, stem: string, lines: seq<string>)
    ensures DatedGrowth(p, DataframeLines(p, stem, lines), stem, Stamped(lines))
    decreases |lines|
  {
    if lines != [] {
      var q := DataframeStep(p, stem, lines[0]);
      DataframeLinesGrowth(q, stem, lines[1..]);
      if ParseLine(lines[0]).Some? {
        assert p.dates + [stem] + Repeat(stem, Stamped(lines[1..])) == p.dates + Repeat(stem, Stamped(lines));
      }
    }
  }

  lemma DataframeFileInv(p: DatedPass, f: LogFile)
    requires DatedInv(p)
    ensures DatedInv(DataframeFile(p, f))
    ensures DatedGrowth(p, DataframeFile(p, f), f.stem, Stamped(f.lines))
  {
    DataframeLinesInv(p.(tracker := FileStart), f.stem, f.lines);
    DataframeLinesGrowth(p.(tracker := FileStart), f.stem, f.lines);
  }

  lemma {:induction false} DataframeFilesInv(p: DatedPass, files: seq<LogFile>)
    requires DatedInv(p)
    ensures DatedInv(DataframeFiles(p, files))
    decreases |files|
  {
    if files != [] {
      DataframeFileInv(p, files[0]);
      DataframeFilesInv(DataframeFile(p, files[0]), files[1..]);
    }
  }

  /** `q`'s rows placed after `p`'s, with `q`'s tracking variables. */
  function After(p: DatedPass, q: DatedPass): DatedPass {
    DatedPass(p.dates + q.dates, Join(p.rows, q.rows), q.tracker)
  }

  lemma StepAfter(p: DatedPass, q: DatedPass, stem: string, raw: string)
    ensures DataframeStep(After(p, q), stem, raw) == After(p, DataframeStep(q, stem, raw))
  {
    if ParseLine(raw).Some? {
      var x := ParseLine(raw).value;
      var t := DataframeLine(q.tracker, x.message);
      assert Append(Join(p.rows, q.rows), x.stamp, x.message, t) == Join(p.rows, Append(q.rows, x.stamp, x.message, t));
      assert p.dates + q.dates + [stem] == p.dates + (q.dates + [stem]);
    }
  }

  /** The lines of a file do the same after any earlier rows: the rows they
      add depend only on the tracking variables they start from. */
  lemma {:induction false} LinesAfter(p: DatedPass, q: DatedPass, stem: string, lines: seq<string>)
    ensures DataframeLines(After(p, q), stem, lines) == After(p, DataframeLines(q, stem, lines))
    decreases |lines|
  {
    if lines != [] {
      StepAfter(p, q, stem, lines[0]);
      LinesAfter(p, DataframeStep(q, stem, lines[0]), stem, lines[1..]);
    }
  }

  lemma AfterAssociative(p: DatedPass, a: DatedPass, b: DatedPass)
    ensures After(After(p, a), b) == After(p, After(a, b))
  {
    assert p.dates + a.dates + b.dates == p.dates + (a.dates + b.dates);
    assert Join(Join(p.rows, a.rows), b.rows) == Join(p.rows, Join(a.rows, b.rows));
  }

  /** The rows one file contributes on its own. */
  function FileRows(f: LogFile): DatedPass {
    DataframeFile(DataframeBegin, f)
  }

  /** Because every file starts from "Idle", no product and no flag, a
      file adds the same rows whatever files were read before it. */
  lemma DataframeFileReset(p: DatedPass, f: LogFile)
    ensures DataframeFile(p, f) == After(p, FileRows(f))
  {
    assert p.(tracker := FileStart) == After(p, DataframeBegin);
    LinesAfter(p, DataframeBegin, f.stem, f.lines);
  }

  /** The rows of all the files: each file's own rows, in the order read. */
  function AllFileRows(files: seq<LogFile>): DatedPass
    requires files != []
    decreases |files|
  {
    if |files| == 1 then FileRows(files[0]) else After(FileRows(files[0]), AllFileRows(files[1..]))
  }

  lemma {:induction false} DataframeFilesConcat(p: DatedPass, files: seq<LogFile>)
    requires files != []
    ensures DataframeFiles(p, files) == After(p, AllFileRows(files))
    decreases |files|
  {
    DataframeFileReset(p, files[0]);
    var a := FileRows(files[0]);
    if |files| == 1 {
      assert files[1..] == [];
    } else {
      DataframeFilesConcat(After(p, a), files[1..]);
      AfterAssociative(p, a, AllFileRows(files[1..]));
    }
  }

  // ---------------------------------------------------------------- filter_one_log.py

  /** filter_one_log.py's state: its four lists and the tracking variables. */
  datatype FilterPass = FilterPass(rows: Frame, tracker: Tracker)

  const FilterBegin := FilterPass(NoRows, FilterStart)

  /** Twelve of the thirteen `patterns_to_keep`: regular expressions that
      only match themselves, written here unescaped. */
  const KeepTexts := [
    "----Start Procession: Manufacture----",
    "(0)--Start Mark!-",
    "(0)Stop PLC!",
    "The Software Stop Button is Pressed",
    "Software stopped unexpectedly",
    "(0)The Program is Pressed To Stop(Err:32)",
    "Start processing failed: The Track System is Not Initialized(Err:61)",
    "(0)Failed Waiting for PCB To Be in Place: Software stopped unexpectedly(Err:32)",
    "SetFileName File: D:\\Production Program\\",
    "(0)--Marking Completed)",
    "No Match Pattern Fool Proof!",
    "Waiting for material to arrive failed: This Feature is Not Supported(Err:48)"
  ]

  /** The sixth pattern, `\(0\)Failed Waiting for PCB To Be in Place.*\(Err:32\)`:
      its two literal parts, in this order. */
  const FailedWait := "(0)Failed Waiting for PCB To Be in Place"
  const Err32 := "(Err:32)"

  /** `re.search(a + ".*" + b, s)` for literal `a` and `b` and a line
      without line breaks: `b` occurs after the end of the first `a`. */
  predicate FollowedBy(s: string, a: string, b: string) {
    match IndexOf(s, a)
    case None => false
    case Some(i) => i + |a| <= |s| && Contains(s[i + |a|..], b)
  }

  /** `FollowedBy` holds exactly when some `a` is followed, at or after its
      end, by some `b`. */
  lemma FollowedByOccurrences(s: string, a: string, b: string)
    ensures FollowedBy(s, a, b) <==>
            exists i, j :: OccursAt(s, a, i) && i + |a| <= j && OccursAt(s, b, j)
  {
    match IndexOf(s, a)
    case None =>
    case Some(i0) =>
      var k := i0 + |a|;
      if FollowedBy(s, a, b) {
        var j :| 0 <= j <= |s[k..]| - |b| && OccursAt(s[k..], b, j);
        OccursInSuffix(s, b, k, j);
        assert OccursAt(s, a, i0) && i0 + |a| <= k + j && OccursAt(s, b, k + j);
      }
      if exists i, j :: OccursAt(s, a, i) && i + |a| <= j && OccursAt(s, b, j) {
        var i, j :| OccursAt(s, a, i) && i + |a| <= j && OccursAt(s, b, j);
        assert i0 <= i;
        OccursInSuffix(s, b, k, j - k);
        assert OccursAt(s[k..], b, j - k);
      }
  }

  /** `any(re.search(pattern, message) for pattern in patterns_to_keep)`. */
  predicate Keep(m: string) {
    (exists k :: 0 <= k < |KeepTexts| && Contains(m, KeepTexts[k])) || FollowedBy(m, FailedWait, Err32)
  }

  /** One raw line: only a timestamped line whose message passes the filter
      touches the state. */
  function FilterStep(p: FilterPass, raw: string): FilterPass {
    match ParseLine(raw)
    case None => p
    case Some(x) =>
      if Keep(x.message) then
        var t := FilterLine(p.tracker, x.message);
        FilterPass(Append(p.rows, x.stamp, x.message, t), t)
      else p
  }

  function FilterLines(p: FilterPass, lines: seq<string>): FilterPass
    decreases |lines|
  {
    if lines == [] then p else FilterLines(FilterStep(p, lines[0]), lines[1..])
  }

  /** Whether a raw line reaches the cascade. */
  predicate Kept(raw: string) {
    ParseLine(raw).Some? && Keep(ParseLine(raw).value.message)
  }

  function KeptCount(lines: seq<string>): nat {
    if lines == [] then 0 else (if Kept(lines[0]) then 1 else 0) + KeptCount(lines[1..])
  }

  /** A line that is not kept changes nothing, not even the product; a kept
      line appends one row holding its stamp, its message and the product
      and status after it. The product moves only on a kept line with the
      `SetFileName File:` marker. */
  lemma FilterStepEffect(p: FilterPass, raw: string)
    ensures !Kept(raw) ==> FilterStep(p, raw) == p
    ensures Kept(raw) ==>
              var x := ParseLine(raw).value;
              var q := FilterStep(p, raw);
              q.tracker == FilterLine(p.tracker, x.message)
              && q.rows == Append(p.rows, x.stamp, x.message, q.tracker)
    ensures FilterStep(p, raw).tracker.product != p.tracker.product ==>
              Kept(raw) && Contains(ParseLine(raw).value.message, ProductMarker)
  {
    if Kept(raw) {
      var m := ParseLine(raw).value.message;
      var u := p.tracker.(product := NewProduct(p.tracker.product, m));
      assert FilterLine(p.tracker, m) == Effect(u, FilterMove(u.active.standby, m));
    }
  }

  /** The invariant of the flags and the alignment of the lists hold
      after every line, and one row is added per kept line. */
  lemma {:induction false} FilterLinesInv(p: FilterPass, lines: seq<string>)
    requires Aligned(p.rows) && FlagInv(p.tracker)
    ensures Aligned(FilterLines(p, lines).rows) && FlagInv(FilterLines(p, lines).tracker)
    ensures |FilterLines(p, lines).rows.timestamps| == |p.rows.timestamps| + KeptCount(lines)
    decreases |lines|
  {
    if lines != [] {
      if Kept(lines[0]) {
        FilterLineInv(p.tracker, ParseLine(lines[0]).value.message);
      }
      FilterLinesInv(FilterStep(p, lines[0]), lines[1..]);
    }
  }

  /** No kept line carries a text whose branch sets the status. */
  predicate NeverRaised(lines: seq<string>) {
    forall i :: 0 <= i < |lines| && Kept(lines[i]) ==> !FilterRaises(ParseLine(lines[i]).value.message)
  }

  /** While no kept line sets the status, filter_one_log.py keeps showing
      its lower-case "standby", on every row it writes. */
  lemma {:induction false} LowerStandbyRun(p: FilterPass, lines: seq<string>)
    requires FlagInv(p.tracker) && p.tracker.status == LowerStandby
    requires forall i :: 0 <= i < |p.rows.statuses| ==> p.rows.statuses[i] == LowerStandby
    requires NeverRaised(lines)
    ensures FilterLines(p, lines).tracker.status == LowerStandby
    ensures forall i :: 0 <= i < |FilterLines(p, lines).rows.statuses| ==>
              FilterLines(p, lines).rows.statuses[i] == LowerStandby
    decreases |lines|
  {
    if lines != [] {
      var q := FilterStep(p, lines[0]);
      if Kept(lines[0]) {
        var m := ParseLine(lines[0]).value.message;
        assert !FilterRaises(m) by { assert Kept(lines[0]); }
        LowerStandbyPersists(p.tracker, m);
        FilterLineInv(p.tracker, m);
      }
      assert NeverRaised(lines[1..]) by {
        forall i | 0 <= i < |lines[1..]| && Kept(lines[1..][i])
          ensures !FilterRaises(ParseLine(lines[1..][i]).value.message)
        {
          assert lines[1..][i] == lines[i + 1];
        }
      }
      LowerStandbyRun(q, lines[1..]);
    }
  }

  /** A `SetFileName File:` line under "D:\Production Program\" is kept,
      and so is the stop-button message. */
  lemma KeptMessages(m: string)
    ensures Contains(m, KeepTexts[8]) ==> Keep(m)
    ensures Keep(StopButtonPressed)
  {
    assert OccursAt(StopButtonPressed, KeepTexts[3], 0);
  }

  /** `file_path.split("/")[-1].replace(".log", "")`: the `Date` value of
      every row filter_one_log.py writes. */
  function LogName(path: string): string {
    RemoveAll(LastPiece(path, "/"), ".log")
  }

  /** Every character of a removal result comes from the input. */
  lemma {:induction false} RemoveAllChars(s: string, p: string)
    requires |p| > 0
    ensures forall i :: 0 <= i < |RemoveAll(s, p)| ==> RemoveAll(s, p)[i] in s
    decreases |s|
  {
    if |s| >= |p| {
      if s[..|p|] == p {
        RemoveAllChars(s[|p|..], p);
        forall i | 0 <= i < |RemoveAll(s, p)| ensures RemoveAll(s, p)[i] in s {
          assert RemoveAll(s, p)[i] in s[|p|..];
        }
      } else {
        RemoveAllChars(s[1..], p);
        forall i | 0 <= i < |RemoveAll(s, p)| ensures RemoveAll(s, p)[i] in s {
          if i > 0 {
            assert RemoveAll(s, p)[i] == RemoveAll(s[1..], p)[i - 1];
            assert RemoveAll(s, p)[i] in s[1..];
          }
        }
      }
    }
  }

  /** The log name never holds a "/"; a path without any "/" and without
      ".log", such as a Windows path, is its own log name. */
  lemma LogNameFacts(path: string)
    ensures '/' !in LogName(path)
    ensures !Contains(path, "/") && !Contains(path, ".log") ==> LogName(path) == path
  {
    var piece := LastPiece(path, "/");
    RemoveAllChars(piece, ".log");
    if '/' in piece {
      var i :| 0 <= i < |piece| && piece[i] == '/';
      assert OccursAt(piece, "/", i);
    }
    if !Contains(path, "/") && !Contains(path, ".log") {
      RemoveAllAbsent(path, ".log");
    }
  }
}
