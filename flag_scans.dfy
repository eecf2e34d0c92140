/** The module-level variables of Dataframe.py and filter_one_log.py as
    objects. Each method does in place what the script does and is proved
    to end in the state the functions of `FlagRuns` describe. */
module FlagScans {
  import opened Options
  import opened Text
  import opened Labels
  import opened LogLine
  import opened Flags
  import opened FlagRuns

  /** Dataframe.py: the five lists across all files, and the tracking
      variables of the file being read. */
  class DataframeScan {
    var dates: seq<string>
    /** `timestamps`, `log_messages`, `products` and `statuses`. */
    var rows: Frame
    var currentStatus: Shown
    var productiveActive: bool
    var idleActive: bool
    var standbyActive: bool
    var downtimeActive: bool
    var currentProduct: string

    function Tracked(): Tracker
      reads this
    {
      Tracker(currentStatus, Active(productiveActive, idleActive, standbyActive, downtimeActive), currentProduct)
    }

    function Snap(): DatedPass
      reads this
    {
      DatedPass(dates, rows, Tracked())
    }

    constructor()
      ensures Snap() == DataframeBegin
    {
      dates, rows := [], NoRows;
      currentStatus, currentProduct := Named(Idle), "";
      productiveActive, idleActive, standbyActive, downtimeActive := false, false, false, false;
    }

    /** The set-up at the top of every file. */
    method ResetTracking()
      modifies this`currentStatus, this`currentProduct, this`productiveActive,
               this`idleActive, this`standbyActive, this`downtimeActive
      ensures Snap() == old(Snap()).(tracker := FileStart)
    {
      currentStatus := Named(Idle);
      currentProduct := "";
      productiveActive := false;
      idleActive := false;
      standbyActive := false;
      downtimeActive := false;
    }

    /** The status-transition cascade. */
    method Classify(message: string)
      modifies this`currentStatus, this`productiveActive, this`idleActive,
               this`standbyActive, this`downtimeActive
      ensures Tracked() == Effect(old(Tracked()), DataframeMove(old(standbyActive), message))
    {
      if Contains(message, StartMarkBang) {
        currentStatus := Named(Productive);
        productiveActive := true;
        idleActive, standbyActive, downtimeActive := false, false, false;
      } else if Contains(message, CuttingDone) {
        productiveActive := false;
      } else if Contains(message, PlcStop) {
        currentStatus := Named(Idle);
        idleActive := true;
        productiveActive, standbyActive, downtimeActive := false, false, false;
      } else if Contains(message, StopButtonPressed) {
        currentStatus := Named(Idle);
        idleActive := true;
        productiveActive, standbyActive, downtimeActive := false, false, false;
      } else if Contains(message, AlarmReset) {
        idleActive := false;
      } else if Contains(message, ProcessionStart) {
        currentStatus := Named(Standby);
        standbyActive := true;
        productiveActive, idleActive, downtimeActive := false, false, false;
      } else if Contains(message, StartMarkWords) && standbyActive {
        standbyActive := false;
      } else if Contains(message, ErrMark) {
        currentStatus := Named(Downtime);
        downtimeActive := true;
        productiveActive, idleActive, standbyActive := false, false, false;
      } else {
        if productiveActive {
          currentStatus := Named(Productive);
        } else if idleActive {
          currentStatus := Named(Idle);
        } else if standbyActive {
          currentStatus := Named(Standby);
        } else if downtimeActive {
          currentStatus := Named(Downtime);
        }
      }
    }

    /** The body of the line loop of the file named `stem`. */
    method ProcessLine(stem: string, raw: string)
      modifies this
      ensures Snap() == DataframeStep(old(Snap()), stem, raw)
    {
      var parsed := ParseLine(raw);
      if parsed.None? {
        return;
      }
      RecordLine(stem, parsed.value.stamp, parsed.value.message);
    }

    /** A timestamped line: the product, the cascade, then the appends. */
    method RecordLine(stem: string, stamp: string, message: string)
      modifies this
      ensures Tracked() == DataframeLine(old(Tracked()), message)
      ensures Snap() == DatedPass(old(dates) + [stem], Append(old(rows), stamp, message, Tracked()), Tracked())
    {
      if Contains(message, ProductMarker) {
        currentProduct := ProductName(message);
      }
      Classify(message);
      rows := Frame(rows.timestamps + [stamp], rows.messages + [message],
                    rows.products + [currentProduct], rows.statuses + [currentStatus]);
      dates := dates + [stem];
    }

    /** One file: the set-up, then the line loop. */
    method ProcessFile(f: LogFile)
      modifies this
      ensures Snap() == DataframeFile(old(Snap()), f)
    {
      ResetTracking();
      var j := 0;
      while j < |f.lines|
        invariant 0 <= j <= |f.lines|
        invariant DataframeLines(Snap(), f.stem, f.lines[j..]) == DataframeFile(old(Snap()), f)
      {
        assert f.lines[j..][0] == f.lines[j] && f.lines[j..][1..] == f.lines[j + 1..];
        ProcessLine(f.stem, f.lines[j]);
        j := j + 1;
      }
      assert f.lines[j..] == [];
    }

    /** The file loop. */
    method ProcessFiles(files: seq<LogFile>)
      modifies this
      ensures Snap() == DataframeFiles(old(Snap()), files)
    {
      var k := 0;
      while k < |files|
        invariant 0 <= k <= |files|
        invariant DataframeFiles(Snap(), files[k..]) == DataframeFiles(old(Snap()), files)
      {
        assert files[k..][0] == files[k] && files[k..][1..] == files[k + 1..];
        ProcessFile(files[k]);
        k := k + 1;
      }
      assert files[k..] == [];
    }
  }

  /** filter_one_log.py: its four lists, its tracking variables, and the
      log name that becomes the `Date` of every row. */
  class FilterScan {
    const logFilename: string
    var rows: Frame
    var currentStatus: Shown
    var productiveActive: bool
    var idleActive: bool
    var standbyActive: bool
    var downtimeActive: bool
    var currentProduct: string

    function Tracked(): Tracker
      reads this
    {
      Tracker(currentStatus, Active(productiveActive, idleActive, standbyActive, downtimeActive), currentProduct)
    }

    function Snap(): FilterPass
      reads this
    {
      FilterPass(rows, Tracked())
    }

    /** The set-up for the file at `path`. */
    constructor(path: string)
      ensures logFilename == LogName(path)
      ensures Snap() == FilterBegin
    {
      logFilename := RemoveAll(LastPiece(path, "/"), ".log");
      rows := NoRows;
      currentStatus, currentProduct := LowerStandby, "";
      productiveActive, idleActive, standbyActive, downtimeActive := false, false, false, false;
    }

    /** The status-transition cascade of a kept message. */
    method Classify(message: string)
      modifies this`currentStatus, this`productiveActive, this`idleActive,
               this`standbyActive, this`downtimeActive
      ensures Tracked() == Effect(old(Tracked()), FilterMove(old(standbyActive), message))
    {
      if Contains(message, StartMarkWords) {
        currentStatus := Named(Productive);
        productiveActive := true;
        idleActive, standbyActive, downtimeActive := false, false, false;
      } else if Contains(message, CuttingDone) {
        productiveActive := false;
      } else if Contains(message, ZeroPlcStop) {
        currentStatus := Named(Idle);
        idleActive := true;
        productiveActive, standbyActive, downtimeActive := false, false, false;
      } else if Contains(message, AlarmReset) {
        idleActive := false;
      } else if Contains(message, ProcessionStart) {
        currentStatus := Named(Standby);
        standbyActive := true;
        productiveActive, idleActive, downtimeActive := false, false, false;
      } else if Contains(message, StartMarkWords) && standbyActive {
        // never reached: the first test took every "Start Mark" message
        assert false;
      } else if Contains(message, ErrMark) {
        currentStatus := Named(Downtime);
        downtimeActive := true;
        productiveActive, idleActive, standbyActive := false, false, false;
      } else {
        if productiveActive {
          currentStatus := Named(Productive);
        } else if idleActive {
          currentStatus := Named(Idle);
        } else if standbyActive {
          currentStatus := Named(Standby);
        } else if downtimeActive {
          currentStatus := Named(Downtime);
        }
      }
    }

    /** The body of the line loop: the pattern filter, then the product,
        the cascade and the appends. */
    method ProcessLine(raw: string)
      modifies this
      ensures Snap() == FilterStep(old(Snap()), raw)
    {
      var parsed := ParseLine(raw);
      if parsed.None? {
        return;
      }
      if !Keep(parsed.value.message) {
        return;
      }
      RecordLine(parsed.value.stamp, parsed.value.message);
    }

    /** A kept line: the product, the cascade, then the appends. */
    method RecordLine(stamp: string, message: string)
      modifies this
      ensures Tracked() == FilterLine(old(Tracked()), message)
      ensures Snap() == FilterPass(Append(old(rows), stamp, message, Tracked()), Tracked())
    {
      if Contains(message, ProductMarker) {
        currentProduct := ProductName(message);
      }
      Classify(message);
      rows := Frame(rows.timestamps + [stamp], rows.messages + [message],
                    rows.products + [currentProduct], rows.statuses + [currentStatus]);
    }

    /** The line loop over the whole file. */
    method ProcessLines(lines: seq<string>)
      modifies this
      ensures Snap() == FilterLines(old(Snap()), lines)
    {
      var j := 0;
      while j < |lines|
        invariant 0 <= j <= |lines|
        invariant FilterLines(Snap(), lines[j..]) == FilterLines(old(Snap()), lines)
      {
        assert lines[j..][0] == lines[j] && lines[j..][1..] == lines[j + 1..];
        ProcessLine(lines[j]);
        j := j + 1;
      }
      assert lines[j..] == [];
    }
  }
}
