/** The module globals of status6.py, status7.py and status8.py as one
    object: the nine lists appended to, the state carried from file to file
    and the state of the file being read. Each method does what the script
    does, in place, and is proved to end in the state the functions of
    `Assigned` describe. */
module AssignedLog {
  import opened Options
  import opened Text
  import opened Labels
  import opened Classifier
  import opened LogLine
  import opened Calendar
  import opened Assigned

  class Log {
    const script: Script

    /** `timestamps`, `log_messages`, `statuses`, `products`,
        `product_ids`, `time_diffs`, `dates`, `assigned_bases` and
        `assigned_time_diffs`, held together. */
    var columns: Columns

    var globalBaseStatus: Status
    var machinePoweredOn: bool

    /** `current_product`, `current_product_id`, `last_product` and
        `last_product_id`. */
    var product: Product

    var currentBaseStatus: Status
    var previousSeconds: Option<nat>
    var previousLabel: Label
    var fileDate: Date

    /** The value this object holds. */
    function Snap(): Snapshot
      reads this
    {
      Snapshot(columns, globalBaseStatus, machinePoweredOn, product,
               currentBaseStatus, previousSeconds, previousLabel, fileDate)
    }

    constructor(script: Script)
      ensures this.script == script && Snap() == Initial
    {
      this.script := script;
      columns := NoColumns;
      globalBaseStatus, machinePoweredOn := Standby, true;
      product := Product("", DefaultProductId, "", DefaultProductId);
      currentBaseStatus, previousSeconds, previousLabel := Standby, None, Bare(Standby);
      fileDate := Date(1, 1, 1);
    }

    /** `end_previous_status`: rewrite the last stored label to "End <base>"
        when its base is Productive, Idle or Standby. */
    method EndPreviousStatus()
      modifies this`columns
      ensures columns == old(columns).(statuses := ClosePrevious(old(columns.statuses)))
    {
      var statuses := columns.statuses;
      if |statuses| > 0 {
        var lastBase := statuses[|statuses| - 1].status;
        if IsOpenable(lastBase) {
          columns := columns.(statuses := statuses[|statuses| - 1 := End(lastBase)]);
        }
      }
    }

    /** The product block: a `SetFileName File:` message sets the current
        and last product and, when its path holds one, their ID. */
    method UpdateProductFields(message: string)
      modifies this`product
      ensures product == UpdateProduct(old(product), message)
    {
      if Contains(message, ProductMarker) {
        var name := ProductName(message);
        var id := ProductId(name);
        if id.Some? {
          product := Product(name, id.value, name, id.value);
        } else {
          product := product.(current := name, currentId := DefaultProductId, last := name);
        }
      }
    }

    /** The time-difference block for a line at `now` seconds. */
    method BookInterval(now: nat)
      modifies this`columns
      ensures columns == Book(old(columns), Booked(script, machinePoweredOn, previousSeconds, previousLabel),
                              fileDate, if previousSeconds.Some? then previousSeconds.value else 0,
                              now, previousLabel.status)
    {
      var c := columns;
      if machinePoweredOn && previousSeconds.Some? && (script == Status6 || previousLabel != Bare(Off)) {
        var pieces := SplitAtMidnight(previousSeconds.value, now);
        if |pieces| == 2 {
          columns := c.(timeDiffs := c.timeDiffs + [Some(pieces[0] + pieces[1])], dates := c.dates + [fileDate, fileDate],
                        assignedBases := c.assignedBases + [Some(previousLabel.status), Some(previousLabel.status)],
                        assignedSeconds := c.assignedSeconds + [Some(pieces[0]), Some(pieces[1])]);
        } else {
          columns := c.(timeDiffs := c.timeDiffs + [Some(pieces[0])], dates := c.dates + [fileDate],
                        assignedBases := c.assignedBases + [Some(previousLabel.status)],
                        assignedSeconds := c.assignedSeconds + [Some(pieces[0])]);
        }
      } else {
        columns := c.(timeDiffs := c.timeDiffs + [None], dates := c.dates + [fileDate],
                      assignedBases := c.assignedBases + [None], assignedSeconds := c.assignedSeconds + [None]);
      }
    }

    /** The body of the line loop. `ok` is false where `strptime` raises. */
    method ProcessLine(raw: string) returns (ok: bool)
      modifies this
      ensures ok == StepLine(script, old(Snap()), raw).Some?
      ensures ok ==> Snap() == StepLine(script, old(Snap()), raw).value
    {
      var parsed := ParseLine(raw);
      if parsed.None? {
        return true;
      }
      var clock := ClockSeconds(parsed.value.stamp);
      if clock.None? {
        return false;
      }
      RecordLine(parsed.value.stamp, parsed.value.message, clock.value);
      return true;
    }

    /** An accepted line: the trigger cascade, then its effect in two halves. */
    method RecordLine(stamp: string, message: string, now: nat)
      modifies this
      ensures Snap() == Record(script, old(Snap()), stamp, message, now)
    {
      var t := Classify(script, currentBaseStatus, message);
      UpdateProductFields(message);
      EnterLine(t);
      EmitLine(stamp, message, now, t.newLabel);
    }

    /** The retroactive close, the base and the power. */
    method EnterLine(t: Transition)
      modifies this
      ensures Snap() == Enter(old(Snap()), t)
    {
      if t.closePrevious {
        EndPreviousStatus();
      }
      currentBaseStatus, machinePoweredOn := t.newBase, ApplyPower(machinePoweredOn, t.power);
    }

    /** The time-difference block, the appends and the previous-line update. */
    method EmitLine(stamp: string, message: string, now: nat, l: Label)
      modifies this
      ensures Snap() == Emit(script, old(Snap()), stamp, message, now, l)
    {
      BookInterval(now);
      AppendRow(stamp, message, l);
      previousSeconds, previousLabel := Some(now), l;
    }

    /** The five appends that end the line body. */
    method AppendRow(stamp: string, message: string, l: Label)
      modifies this`columns
      ensures columns == old(columns).(timestamps := old(columns.timestamps) + [stamp],
                                       messages := old(columns.messages) + [message],
                                       statuses := old(columns.statuses) + [l],
                                       products := old(columns.products) + [product.current],
                                       productIds := old(columns.productIds) + [product.currentId])
    {
      var c := columns;
      columns := c.(timestamps := c.timestamps + [stamp], messages := c.messages + [message],
                    statuses := c.statuses + [l], products := c.products + [product.current],
                    productIds := c.productIds + [product.currentId]);
    }

    /** One file dated `date`: an empty file is skipped; otherwise the
        per-file set-up, the line loop, and the carry of the base. */
    method ProcessFile(date: Date, lines: seq<string>) returns (ok: bool)
      modifies this
      ensures ok == RunFileOn(script, old(Snap()), date, lines).Some?
      ensures ok ==> Snap() == RunFileOn(script, old(Snap()), date, lines).value
    {
      if |lines| == 0 {
        return true;
      }
      OpenFileFields(date);
      ok := ProcessLines(lines);
      if ok {
        globalBaseStatus := currentBaseStatus;
      }
    }

    /** The per-file set-up: the carried base, no previous line, the
        carried product and the file's date. */
    method OpenFileFields(date: Date)
      modifies this
      ensures Snap() == OpenFile(old(Snap()), date)
    {
      currentBaseStatus, previousSeconds, previousLabel := globalBaseStatus, None, Bare(globalBaseStatus);
      product, fileDate := Product(product.last, product.lastId, product.last, product.lastId), date;
    }

    /** The line loop of one file. */
    method ProcessLines(lines: seq<string>) returns (ok: bool)
      modifies this
      ensures ok == RunLines(script, old(Snap()), lines).Some?
      ensures ok ==> Snap() == RunLines(script, old(Snap()), lines).value
    {
      var j := 0;
      while j < |lines|
        invariant 0 <= j <= |lines|
        invariant RunLines(script, Snap(), lines[j..]) == RunLines(script, old(Snap()), lines)
      {
        assert lines[j..][0] == lines[j] && lines[j..][1..] == lines[j + 1..];
        ok := ProcessLine(lines[j]);
        if !ok {
          return false;
        }
        j := j + 1;
      }
      assert lines[j..] == [];
      return true;
    }

    /** The file header of status8.py: a file without a date in its name is
        skipped, a date `datetime` refuses stops the run. */
    method ProcessFileDated(f: LogFile) returns (ok: bool)
      requires script == Status78
      modifies this
      ensures ok == RunFileDated(old(Snap()), f).Some?
      ensures ok ==> Snap() == RunFileDated(old(Snap()), f).value
    {
      var fd := ParseFileDate(f.stem);
      if fd.NoDate? {
        return true;
      } else if fd.BadDate? {
        return false;
      }
      ok := ProcessFile(fd.date, f.lines);
    }

    /** The file loop of status8.py: files in sorted order, each dated by
        its name, skipped without a date. */
    method ProcessFilesDated(files: seq<LogFile>) returns (ok: bool)
      requires script == Status78
      modifies this
      ensures ok == RunFilesDated(old(Snap()), files).Some?
      ensures ok ==> Snap() == RunFilesDated(old(Snap()), files).value
    {
      var k := 0;
      while k < |files|
        invariant 0 <= k <= |files|
        invariant RunFilesDated(Snap(), files[k..]) == RunFilesDated(old(Snap()), files)
      {
        assert files[k..][0] == files[k] && files[k..][1..] == files[k + 1..];
        ok := ProcessFileDated(files[k]);
        if !ok {
          return false;
        }
        k := k + 1;
      }
      return true;
    }

    /** The file loop of status6.py and status7.py: every file dated with
        the run date. */
    method ProcessFilesToday(today: Date, files: seq<LogFile>) returns (ok: bool)
      modifies this
      ensures ok == RunFilesToday(script, old(Snap()), today, files).Some?
      ensures ok ==> Snap() == RunFilesToday(script, old(Snap()), today, files).value
    {
      var k := 0;
      while k < |files|
        invariant 0 <= k <= |files|
        invariant RunFilesToday(script, Snap(), today, files[k..]) == RunFilesToday(script, old(Snap()), today, files)
      {
        assert files[k..][0] == files[k] && files[k..][1..] == files[k + 1..];
        ok := ProcessFile(today, files[k].lines);
        if !ok {
          return false;
        }
        k := k + 1;
      }
      return true;
    }
  }
}
