/** `generate_status_summary`: the rows of the data frame grouped by date
    and base state, their seconds summed per group, and the groups laid
    out as one row per date with a fixed list of state columns
    (`unstack(fill_value=0)` followed by `reindex(columns=desired_order,
    fill_value=0)`). Durations stay in whole seconds here. */
module Summary {
  import opened Labels

  /** One data-frame row as the summary sees it: the date it is grouped
      under, the base state it is grouped under, and its seconds. */
  datatype Entry<D> = Entry(date: D, base: Status, seconds: int)

  /** `desired_order` of status7.py, status8.py and status9.py. */
  const FiveColumns := [Idle, Standby, Downtime, Productive, Off]

  /** `desired_order` of status4.py and status6.py. */
  const FourColumns := [Idle, Standby, Downtime, Productive]

  const AllStates := {Productive, Idle, Standby, Downtime, Off, SoftwareClosed}

  lemma EveryState(b: Status)
    ensures b in AllStates
  {
  }

  function Sum(xs: seq<int>): int {
    if xs == [] then 0 else xs[0] + Sum(xs[1..])
  }

  /** The seconds of the entries on day `d` whose base lies in `cs`. */
  function InStates<D(==)>(es: seq<Entry<D>>, d: D, cs: set<Status>): int {
    if es == [] then 0
    else
      var e := es[|es| - 1];
      InStates(es[..|es| - 1], d, cs) + (if e.date == d && e.base in cs then e.seconds else 0)
  }

  /** The `groupby(...).sum()` cell of day `d` and state `b`; zero where
      the group is empty, as `fill_value=0` makes it. */
  function Total<D(==)>(es: seq<Entry<D>>, d: D, b: Status): int {
    InStates(es, d, {b})
  }

  /** Everything booked on day `d`, whatever its state. */
  function DayTotal<D(==)>(es: seq<Entry<D>>, d: D): int {
    InStates(es, d, AllStates)
  }

  /** The dates that appear in the grouped rows. */
  function Dates<D>(es: seq<Entry<D>>): set<D> {
    set i | 0 <= i < |es| :: es[i].date
  }

  /** One summary row: the cell of each requested column, in order. */
  function Row<D(==)>(es: seq<Entry<D>>, d: D, columns: seq<Status>): (r: seq<int>)
    ensures |r| == |columns|
    ensures forall i :: 0 <= i < |columns| ==> r[i] == Total(es, d, columns[i])
  {
    if columns == [] then [] else [Total(es, d, columns[0])] + Row(es, d, columns[1..])
  }

  /** The summary table: one row per date present, one cell per column. */
  function Summarize<D(==)>(es: seq<Entry<D>>, columns: seq<Status>): (t: map<D, seq<int>>)
    ensures t.Keys == Dates(es)
    ensures forall d :: d in t ==> |t[d]| == |columns|
  {
    map d | d in Dates(es) :: Row(es, d, columns)
  }

  predicate Distinct(columns: seq<Status>) {
    forall i, j :: 0 <= i < j < |columns| ==> columns[i] != columns[j]
  }

  /** Counting `b` on its own and the states `cs` it is not among is
      counting `cs` with `b` added. */
  lemma {:induction false} InStatesAdd<D>(es: seq<Entry<D>>, d: D, cs: set<Status>, b: Status)
    requires b !in cs
    ensures InStates(es, d, cs) + Total(es, d, b) == InStates(es, d, cs + {b})
    decreases |es|
  {
    if es != [] {
      InStatesAdd(es[..|es| - 1], d, cs, b);
    }
  }

  /** Only the states that occur on day `d` matter. */
  lemma {:induction false} InStatesOccurring<D>(es: seq<Entry<D>>, d: D, cs: set<Status>, ds: set<Status>)
    requires forall i :: 0 <= i < |es| && es[i].date == d ==> (es[i].base in cs <==> es[i].base in ds)
    ensures InStates(es, d, cs) == InStates(es, d, ds)
    decreases |es|
  {
    if es != [] {
      InStatesOccurring(es[..|es| - 1], d, cs, ds);
    }
  }

  /** A state whose entries on day `d` carry no seconds counts zero on
      that day; so does a state no entry of that day has. */
  lemma {:induction false} SilentStateZero<D>(es: seq<Entry<D>>, d: D, b: Status)
    requires forall i :: 0 <= i < |es| && es[i].date == d && es[i].base == b ==> es[i].seconds == 0
    ensures Total(es, d, b) == 0
    decreases |es|
  {
    if es != [] {
      SilentStateZero(es[..|es| - 1], d, b);
    }
  }

  lemma {:induction false} EmptyStatesZero<D>(es: seq<Entry<D>>, d: D)
    ensures InStates(es, d, {}) == 0
    decreases |es|
  {
    if es != [] {
      EmptyStatesZero(es[..|es| - 1], d);
    }
  }

  /** A row with distinct columns adds up to the seconds of its day booked
      on those columns' states: nothing is counted twice. */
  lemma {:induction false} RowSum<D>(es: seq<Entry<D>>, d: D, columns: seq<Status>)
    requires Distinct(columns)
    ensures Sum(Row(es, d, columns)) == InStates(es, d, set c | c in columns)
    decreases |columns|
  {
    if columns == [] {
      EmptyStatesZero(es, d);
      assert (set c | c in columns) == {};
    } else {
      var rest := columns[1..];
      RowSum(es, d, rest);
      assert forall j :: 0 <= j < |rest| ==> rest[j] == columns[j + 1];
      InStatesAdd(es, d, (set c | c in rest), columns[0]);
      assert (set c | c in columns) == (set c | c in rest) + {columns[0]};
    }
  }

  /** When every state booked on day `d` has a column, the row of `d` adds
      up to everything booked that day. */
  lemma RowCoversDay<D>(es: seq<Entry<D>>, d: D, columns: seq<Status>)
    requires Distinct(columns)
    requires forall i :: 0 <= i < |es| && es[i].date == d ==> es[i].base in columns
    ensures Sum(Row(es, d, columns)) == DayTotal(es, d)
  {
    RowSum(es, d, columns);
    var cs := set c | c in columns;
    forall i | 0 <= i < |es| && es[i].date == d ensures es[i].base in cs <==> es[i].base in AllStates {
      EveryState(es[i].base);
    }
    InStatesOccurring(es, d, cs, AllStates);
  }

  /** When the states of day `d` are the columns and one state `b` without
      a column, the row of `d` misses exactly the seconds booked on `b`. */
  lemma RowDropsState<D>(es: seq<Entry<D>>, d: D, columns: seq<Status>, b: Status)
    requires Distinct(columns) && b !in columns
    requires forall i :: 0 <= i < |es| && es[i].date == d ==> es[i].base in columns || es[i].base == b
    ensures Sum(Row(es, d, columns)) == DayTotal(es, d) - Total(es, d, b)
  {
    var cs := set c | c in columns;
    RowSum(es, d, columns);
    InStatesAdd(es, d, cs, b);
    forall i | 0 <= i < |es| && es[i].date == d ensures es[i].base in cs + {b} <==> es[i].base in AllStates {
      EveryState(es[i].base);
    }
    InStatesOccurring(es, d, cs + {b}, AllStates);
  }
}
