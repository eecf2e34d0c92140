/** `generate_status_summary` of status6.py, status7.py and status8.py:
    only the rows that booked an interval (non-null `Assigned_Base` and
    `Assigned_Time_Seconds`) are grouped, by their date and booked state. */
module AssignedSummary {
  import opened Options
  import opened Labels
  import opened LogLine
  import opened Calendar
  import opened Assigned
  import opened Summary

  /** Row `i` booked an interval: `Assigned_Base` and
      `Assigned_Time_Seconds` are both non-null. */
  predicate IsBooked(c: Columns, i: nat)
    requires Aligned(c) && i < |c.timestamps|
  {
    c.assignedBases[i].Some? && c.assignedSeconds[i].Some?
  }

  /** What the summary reads from a booked row. */
  function BookedEntry(c: Columns, i: nat): Entry<Date>
    requires Aligned(c) && i < |c.timestamps| && IsBooked(c, i)
  {
    Entry(c.dates[i], c.assignedBases[i].value, c.assignedSeconds[i].value)
  }

  /** How many of the first `n` rows are booked. */
  function BookedCount(c: Columns, n: nat): (k: nat)
    requires Aligned(c) && n <= |c.timestamps|
    ensures k <= n
  {
    if n == 0 then 0 else BookedCount(c, n - 1) + (if IsBooked(c, n - 1) then 1 else 0)
  }

  /** The booked rows among the first `n` rows, in order. */
  function BookedEntries(c: Columns, n: nat): (es: seq<Entry<Date>>)
    requires Aligned(c) && n <= |c.timestamps|
    ensures |es| == BookedCount(c, n) <= n
  {
    if n == 0 then []
    else
      var k := n - 1;
      BookedEntries(c, k) + (if IsBooked(c, k) then [BookedEntry(c, k)] else [])
  }

  /** The summary keeps every booked row, in order: the entry of booked
      row `i` comes right after those of the booked rows before it. */
  lemma {:induction false} BookedEntriesInOrder(c: Columns, n: nat)
    requires Aligned(c) && n <= |c.timestamps|
    ensures forall i :: 0 <= i < n && IsBooked(c, i) ==>
              BookedCount(c, i) < |BookedEntries(c, n)| && BookedEntries(c, n)[BookedCount(c, i)] == BookedEntry(c, i)
    decreases n
  {
    if n > 0 {
      BookedEntriesInOrder(c, n - 1);
      var es, prefix := BookedEntries(c, n), BookedEntries(c, n - 1);
      forall i | 0 <= i < n && IsBooked(c, i)
        ensures BookedCount(c, i) < |es| && es[BookedCount(c, i)] == BookedEntry(c, i)
      {
        if i < n - 1 {
          BookedCountGrows(c, i + 1, n - 1);
          assert es[BookedCount(c, i)] == prefix[BookedCount(c, i)];
        }
      }
    }
  }

  /** `e` is what the summary reads from one of the first `n` rows, and
      that row booked an interval. */
  predicate FromBookedRow(c: Columns, n: nat, e: Entry<Date>)
    requires Aligned(c) && n <= |c.timestamps|
  {
    exists i :: 0 <= i < n && IsBooked(c, i) && e == BookedEntry(c, i)
  }

  /** The summary keeps nothing but booked rows: every entry is the entry
      of a booked row among the first `n`. */
  lemma {:induction false} BookedEntriesOnly(c: Columns, n: nat)
    requires Aligned(c) && n <= |c.timestamps|
    ensures forall k :: 0 <= k < |BookedEntries(c, n)| ==> FromBookedRow(c, n, BookedEntries(c, n)[k])
    decreases n
  {
    if n > 0 {
      BookedEntriesOnly(c, n - 1);
      var es, prefix := BookedEntries(c, n), BookedEntries(c, n - 1);
      forall k | 0 <= k < |es|
        ensures FromBookedRow(c, n, es[k])
      {
        if k < |prefix| {
          assert FromBookedRow(c, n - 1, prefix[k]);
          var i :| 0 <= i < n - 1 && IsBooked(c, i) && prefix[k] == BookedEntry(c, i);
          assert es[k] == BookedEntry(c, i);
        } else {
          assert IsBooked(c, n - 1) && es[k] == BookedEntry(c, n - 1);
        }
      }
    }
  }

  /** The count never falls as more rows are read, and a booked row counts. */
  lemma {:induction false} BookedCountGrows(c: Columns, m: nat, n: nat)
    requires Aligned(c) && 0 < m <= n <= |c.timestamps|
    ensures BookedCount(c, m - 1) + (if IsBooked(c, m - 1) then 1 else 0) <= BookedCount(c, n)
    decreases n - m
  {
    if m < n {
      BookedCountGrows(c, m, n - 1);
    }
  }

  /** The rows the summary groups; None where the lists differ in length
      and `pd.DataFrame` refuses them. */
  function Grouped(c: Columns): (r: Option<seq<Entry<Date>>>)
    ensures r.Some? <==> Aligned(c)
  {
    if Aligned(c) then Some(BookedEntries(c, |c.timestamps|)) else None
  }

  /** Each grouped row carries a state its script can book on and a date
      taken from the date column. */
  lemma {:induction false} BookedEntriesFrom(script: Script, c: Columns, n: nat)
    requires Aligned(c) && n <= |c.timestamps|
    requires forall i :: 0 <= i < |c.timestamps| ==> BookedRow(script, c, i)
    ensures forall k :: 0 <= k < |BookedEntries(c, n)| ==>
              Assignable(script, BookedEntries(c, n)[k].base)
              && exists i :: 0 <= i < n && c.dates[i] == BookedEntries(c, n)[k].date
    decreases n
  {
    if n > 0 {
      BookedEntriesFrom(script, c, n - 1);
      assert BookedRow(script, c, n - 1);
      var es, prefix := BookedEntries(c, n), BookedEntries(c, n - 1);
      forall k | 0 <= k < |es|
        ensures Assignable(script, es[k].base) && exists i :: 0 <= i < n && c.dates[i] == es[k].date
      {
        if k < |prefix| {
          assert es[k] == prefix[k];
        }
      }
    }
  }

  /** The summary of status7.py and status8.py: the Off column is always
      zero, since no interval is booked on Off, and every row adds up to
      everything its day booked. */
  lemma OffAwareSummary(s: Snapshot)
    requires Inv(Status78, s)
    ensures Grouped(s.cols).Some?
    ensures var es := Grouped(s.cols).value;
            var t := Summarize(es, FiveColumns);
            forall d :: d in t ==> t[d][4] == 0 && Sum(t[d]) == DayTotal(es, d)
  {
    var es := Grouped(s.cols).value;
    BookedEntriesFrom(Status78, s.cols, |s.cols.timestamps|);
    forall k | 0 <= k < |es| ensures es[k].base in FiveColumns && es[k].base != Off {
      assert Assignable(Status78, es[k].base);
    }
    forall d | d in Summarize(es, FiveColumns)
      ensures Summarize(es, FiveColumns)[d][4] == 0 && Sum(Summarize(es, FiveColumns)[d]) == DayTotal(es, d)
    {
      FiveColumnRow(es, d);
    }
  }

  /** A day with nothing booked on Off has a zero Off cell and a row
      adding up to the day. */
  lemma FiveColumnRow(es: seq<Entry<Date>>, d: Date)
    requires forall k :: 0 <= k < |es| ==> es[k].base in FiveColumns && es[k].base != Off
    ensures Row(es, d, FiveColumns)[4] == 0 && Sum(Row(es, d, FiveColumns)) == DayTotal(es, d)
  {
    SilentStateZero(es, d, Off);
    assert Distinct(FiveColumns);
    RowCoversDay(es, d, FiveColumns);
  }

  /** The summary of status6.py has no column for "Software Closed", so
      every row misses exactly the time booked on that label. */
  lemma ClosedLabelSummary(s: Snapshot)
    requires Inv(Status6, s)
    ensures Grouped(s.cols).Some?
    ensures var es := Grouped(s.cols).value;
            var t := Summarize(es, FourColumns);
            forall d :: d in t ==> Sum(t[d]) == DayTotal(es, d) - Total(es, d, SoftwareClosed)
  {
    var es := Grouped(s.cols).value;
    BookedEntriesFrom(Status6, s.cols, |s.cols.timestamps|);
    forall k | 0 <= k < |es| ensures es[k].base in FourColumns || es[k].base == SoftwareClosed {
      assert Assignable(Status6, es[k].base);
    }
    forall d | d in Summarize(es, FourColumns)
      ensures Sum(Summarize(es, FourColumns)[d]) == DayTotal(es, d) - Total(es, d, SoftwareClosed)
    {
      FourColumnRow(es, d);
    }
  }

  /** A day whose states all have a column but "Software Closed" has a
      row adding up to the day without that state's time. */
  lemma FourColumnRow(es: seq<Entry<Date>>, d: Date)
    requires forall k :: 0 <= k < |es| ==> es[k].base in FourColumns || es[k].base == SoftwareClosed
    ensures Sum(Row(es, d, FourColumns)) == DayTotal(es, d) - Total(es, d, SoftwareClosed)
  {
    assert Distinct(FourColumns);
    RowDropsState(es, d, FourColumns, SoftwareClosed);
  }

  /** A status8.py run ends in a summary whose Off column is zero and
      whose rows add up to their days. */
  lemma Status8Summary(files: seq<LogFile>)
    requires RunFilesDated(Initial, files).Some?
    ensures Grouped(RunFilesDated(Initial, files).value.cols).Some?
    ensures var es := Grouped(RunFilesDated(Initial, files).value.cols).value;
            var t := Summarize(es, FiveColumns);
            forall d :: d in t ==> t[d][4] == 0 && Sum(t[d]) == DayTotal(es, d)
  {
    InitialInv(Status78);
    RunFilesDatedInv(Initial, files);
    OffAwareSummary(RunFilesDated(Initial, files).value);
  }

  /** Every grouped row of a status6.py or status7.py run is dated with
      the run date, so the summary has at most one row: `today`'s. */
  lemma {:induction false} RunTodaySummaryOneDay(script: Script, today: Date, files: seq<LogFile>)
    requires RunFilesToday(script, Initial, today, files).Some?
    ensures Grouped(RunFilesToday(script, Initial, today, files).value.cols).Some?
    ensures Summarize(Grouped(RunFilesToday(script, Initial, today, files).value.cols).value, FiveColumns).Keys <= {today}
    ensures Summarize(Grouped(RunFilesToday(script, Initial, today, files).value.cols).value, FourColumns).Keys <= {today}
  {
    InitialInv(script);
    RunFilesTodayInv(script, Initial, today, files);
    RunFilesTodayDates(script, Initial, today, files);
    var s := RunFilesToday(script, Initial, today, files).value;
    BookedEntriesFrom(script, s.cols, |s.cols.timestamps|);
  }

  /** A status7.py run: one summary row at most, Off column zero. */
  lemma Status7Summary(today: Date, files: seq<LogFile>)
    requires RunFilesToday(Status78, Initial, today, files).Some?
    ensures Grouped(RunFilesToday(Status78, Initial, today, files).value.cols).Some?
    ensures var es := Grouped(RunFilesToday(Status78, Initial, today, files).value.cols).value;
            var t := Summarize(es, FiveColumns);
            t.Keys <= {today} && forall d :: d in t ==> t[d][4] == 0 && Sum(t[d]) == DayTotal(es, d)
  {
    InitialInv(Status78);
    RunFilesTodayInv(Status78, Initial, today, files);
    OffAwareSummary(RunFilesToday(Status78, Initial, today, files).value);
    RunTodaySummaryOneDay(Status78, today, files);
  }

  /** A status6.py run: one summary row at most, missing the time booked
      on "Software Closed". */
  lemma Status6Summary(today: Date, files: seq<LogFile>)
    requires RunFilesToday(Status6, Initial, today, files).Some?
    ensures Grouped(RunFilesToday(Status6, Initial, today, files).value.cols).Some?
    ensures var es := Grouped(RunFilesToday(Status6, Initial, today, files).value.cols).value;
            var t := Summarize(es, FourColumns);
            t.Keys <= {today} && forall d :: d in t ==> Sum(t[d]) == DayTotal(es, d) - Total(es, d, SoftwareClosed)
  {
    InitialInv(Status6);
    RunFilesTodayInv(Status6, Initial, today, files);
    ClosedLabelSummary(RunFilesToday(Status6, Initial, today, files).value);
    RunTodaySummaryOneDay(Status6, today, files);
  }
}
