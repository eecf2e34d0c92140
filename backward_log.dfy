/** The module globals of status4.py and status9.py as one object: the
    seven lists, the carried base and product, and the file being read.
    Each method does in place what the script does and is proved to end
    in the state the functions of `Backward` describe. */
module BackwardLog {
  import opened Options
  import opened Text
  import opened Labels
  import opened Classifier
  import opened LogLine
  import opened Backward

  class Log {
    /** `timestamps`, `log_messages`, `statuses`, `products`,
        `product_ids`, `time_diffs` and `dates`, held together. */
    var rows: Rows

    var globalBaseStatus: Status

    /** `current_product`, `current_product_id`, `last_product` and
        `last_product_id`. */
    var product: Product

    var currentBaseStatus: Status
    var fileName: string

    /** The value this object holds. */
    function Snap(): BackState
      reads this
    {
      BackState(rows, globalBaseStatus, product, currentBaseStatus, fileName)
    }

    constructor()
      ensures Snap() == Begin
    {
      rows := NoRows;
      globalBaseStatus, currentBaseStatus := Standby, Standby;
      product := Product("", DefaultProductId, "", DefaultProductId);
      fileName := "";
    }

    /** `end_previous_status`. */
    method EndPreviousStatus()
      modifies this`rows
      ensures rows == old(rows).(statuses := ClosePrevious(old(rows.statuses)))
    {
      var statuses := rows.statuses;
      if |statuses| > 0 {
        var lastBase := statuses[|statuses| - 1].status;
        if IsOpenable(lastBase) {
          rows := rows.(statuses := statuses[|statuses| - 1 := End(lastBase)]);
        }
      }
    }

    /** The product block. */
    method UpdateProductFields(message: string)
      modifies this`product
      ensures product == UpdateProduct(old(product), message)
    {
      if Contains(message, ProductMarker) {
        var name := ProductName(message);
        var id := ProductId(name);
        if id.Some? {
          product := Product(name, id.value, name, id.value);
        } else {
          product := product.(current := name, currentId := DefaultProductId, last := name);
        }
      }
    }

    /** The body of the line loop; `ok` is false where `strptime` raises. */
    method ProcessLine(raw: string) returns (ok: bool)
      modifies this
      ensures ok == StepBack(old(Snap()), raw).Some?
      ensures ok ==> Snap() == StepBack(old(Snap()), raw).value
    {
      var parsed := ParseLine(raw);
      if parsed.None? {
        return true;
      }
      var clock := ClockSeconds(parsed.value.stamp);
      if clock.None? {
        return false;
      }
      ok := RecordLine(parsed.value.stamp, parsed.value.message, clock.value);
    }

    /** An accepted line: the product block, the cascade, then its effect. */
    method RecordLine(stamp: string, message: string, now: nat) returns (ok: bool)
      modifies this
      ensures ok == RecordBack(old(Snap()), stamp, message, now).Some?
      ensures ok ==> Snap() == RecordBack(old(Snap()), stamp, message, now).value
    {
      var t := Triggers(currentBaseStatus, message);
      UpdateProductFields(message);
      EnterLine(t);
      ok := EmitLine(stamp, message, now, t.newLabel);
    }

    /** The retroactive close and the new base. */
    method EnterLine(t: Transition)
      modifies this
      ensures Snap() == EnterBack(old(Snap()), t)
    {
      if t.closePrevious {
        EndPreviousStatus();
      }
      currentBaseStatus := t.newBase;
    }

    /** The time-difference block against the last stored row, then the
        appends. */
    method EmitLine(stamp: string, message: string, now: nat, l: Label) returns (ok: bool)
      modifies this`rows
      ensures ok == EmitBack(old(Snap()), stamp, message, now, l).Some?
      ensures ok ==> Snap() == EmitBack(old(Snap()), stamp, message, now, l).value
    {
      var diff: Option<int> := None;
      var statuses, timestamps := rows.statuses, rows.timestamps;
      if |statuses| > 0 {
        var prevBase := statuses[|statuses| - 1].status;
        if prevBase == l.status && l.status != Fallback && l.status != Downtime {
          if |timestamps| == 0 || !IsStamp(timestamps[|timestamps| - 1]) {
            return false;
          }
          var prev := ClockSeconds(timestamps[|timestamps| - 1]);
          if prev.None? {
            return false;
          }
          diff := Some(now - prev.value);
        }
      }
      var r := rows;
      rows := Rows(r.timestamps + [stamp], r.messages + [message], r.statuses + [l],
                   r.products + [product.current], r.productIds + [product.currentId],
                   r.timeDiffs + [diff], r.dates + [fileName]);
      return true;
    }

    /** One file: skipped when empty; otherwise the set-up, the line loop
        and the carry of the base. */
    method ProcessFile(f: LogFile) returns (ok: bool)
      modifies this
      ensures ok == RunFileBack(old(Snap()), f).Some?
      ensures ok ==> Snap() == RunFileBack(old(Snap()), f).value
    {
      if |f.lines| == 0 {
        return true;
      }
      currentBaseStatus, fileName := globalBaseStatus, f.stem;
      product := Product(product.last, product.lastId, product.last, product.lastId);
      ok := ProcessLines(f.lines);
      if ok {
        globalBaseStatus := currentBaseStatus;
      }
    }

    /** The line loop of one file. */
    method ProcessLines(lines: seq<string>) returns (ok: bool)
      modifies this
      ensures ok == RunLinesBack(old(Snap()), lines).Some?
      ensures ok ==> Snap() == RunLinesBack(old(Snap()), lines).value
    {
      var j := 0;
      while j < |lines|
        invariant 0 <= j <= |lines|
        invariant RunLinesBack(Snap(), lines[j..]) == RunLinesBack(old(Snap()), lines)
      {
        assert lines[j..][0] == lines[j] && lines[j..][1..] == lines[j + 1..];
        ok := ProcessLine(lines[j]);
        if !ok {
          return false;
        }
        j := j + 1;
      }
      assert lines[j..] == [];
      return true;
    }

    /** The file loop: files in sorted order. */
    method ProcessFiles(files: seq<LogFile>) returns (ok: bool)
      modifies this
      ensures ok == RunFilesBack(old(Snap()), files).Some?
      ensures ok ==> Snap() == RunFilesBack(old(Snap()), files).value
    {
      var k := 0;
      while k < |files|
        invariant 0 <= k <= |files|
        invariant RunFilesBack(Snap(), files[k..]) == RunFilesBack(old(Snap()), files)
      {
        assert files[k..][0] == files[k] && files[k..][1..] == files[k + 1..];
        ok := ProcessFile(files[k]);
        if !ok {
          return false;
        }
        k := k + 1;
      }
      return true;
    }
  }
}
