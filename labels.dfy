/** The machine states and the display labels built from them
    ("Start X", "End X", bare "X"), with `base_status_of`,
    `end_previous_status` and `compute_time_diff`, which every status
    script defines in the same words. */
module Labels {
  import opened Options
  import opened Text

  /** The base states a label can carry. `SoftwareClosed` is the bare
      label "Software Closed" that only status6.py emits. */
  datatype Status = Productive | Idle | Standby | Downtime | Off | SoftwareClosed

  datatype Label = Bare(status: Status) | Start(status: Status) | End(status: Status)

  function Name(s: Status): string {
    match s
    case Productive => "Productive"
    case Idle => "Idle"
    case Standby => "Standby"
    case Downtime => "Downtime"
    case Off => "Off"
    case SoftwareClosed => "Software Closed"
  }

  /** The label text the scripts store in their `statuses` list. */
  function Render(l: Label): string {
    match l
    case Bare(s) => Name(s)
    case Start(s) => "Start " + Name(s)
    case End(s) => "End " + Name(s)
  }

  /** `base_status_of`: a label starting "Start " or "End " loses every
      occurrence of that prefix word (Python's `replace`); any other label
      is its own base. */
  function BaseStatusOf(shown: string): (r: string)
    ensures |r| <= |shown|
    ensures !StartsWith(shown, "Start ") && !StartsWith(shown, "End ") ==> r == shown
  {
    if StartsWith(shown, "Start ") then RemoveAll(shown, "Start ")
    else if StartsWith(shown, "End ") then RemoveAll(shown, "End ")
    else shown
  }

  /** A pattern with a character the string lacks cannot occur in it. */
  lemma MissingCharNoOccurrence(s: string, p: string, k: nat)
    requires k < |p| && p[k] !in s
    ensures !Contains(s, p)
  {
    forall i | 0 <= i <= |s| - |p| ensures !OccursAt(s, p, i) {
      assert s[i + k] in s;
    }
  }

  /** No state name contains either prefix word. */
  lemma NamesLackPrefixes(st: Status)
    ensures !Contains(Name(st), "Start ") && !Contains(Name(st), "End ")
  {
    MissingCharNoOccurrence(Name(st), "End ", 0);
    if st == SoftwareClosed {
      var s, p := Name(st), "Start ";
      forall i | 0 <= i <= |s| - |p| ensures !OccursAt(s, p, i) {
        assert s[i] != p[0] || s[i + 5] != p[5];
      }
    } else {
      MissingCharNoOccurrence(Name(st), "Start ", 5);
    }
  }

  /** `base_status_of` recovers the state from every label a script stores. */
  lemma {:induction false} BaseOfRender(l: Label)
    ensures BaseStatusOf(Render(l)) == Name(l.status)
  {
    NamesLackPrefixes(l.status);
    var n := Name(l.status);
    match l
    case Bare(st) =>
      assert StartsWith(n, "Start ") ==> OccursAt(n, "Start ", 0);
      assert StartsWith(n, "End ") ==> OccursAt(n, "End ", 0);
    case Start(st) =>
      var s := "Start " + n;
      assert s[..6] == "Start ";
      assert s[6..] == n;
      RemoveAllAbsent(n, "Start ");
    case End(st) =>
      var s := "End " + n;
      assert s[0] == 'E';
      assert s[..4] == "End ";
      assert s[4..] == n;
      RemoveAllAbsent(n, "End ");
  }

  /** Distinct labels are stored as distinct strings, so comparing labels
      is comparing what the scripts compare. */
  lemma {:induction false} RenderInjective(a: Label, b: Label)
    requires Render(a) == Render(b)
    ensures a == b
  {
    BaseOfRender(a);
    BaseOfRender(b);
    assert a.status == b.status;
  }

  /** The states `end_previous_status` closes. */
  predicate IsOpenable(st: Status) {
    st == Productive || st == Idle || st == Standby
  }

  function Last<T>(s: seq<T>): T
    requires |s| > 0
  {
    s[|s| - 1]
  }

  /** `end_previous_status` applied to the `statuses` list: the last label,
      when its base is Productive, Idle or Standby, becomes "End <base>". */
  function ClosePrevious(statuses: seq<Label>): (r: seq<Label>)
    ensures |r| == |statuses|
    ensures forall i :: 0 <= i < |statuses| - 1 ==> r[i] == statuses[i]
    ensures |statuses| > 0 ==> Last(r).status == Last(statuses).status
    ensures r != statuses ==> IsOpenable(Last(statuses).status) && Last(r) == End(Last(statuses).status)
    ensures |statuses| > 0 && IsOpenable(Last(statuses).status) ==> Last(r).End?
  {
    if |statuses| > 0 && IsOpenable(Last(statuses).status) then
      statuses[|statuses| - 1 := End(Last(statuses).status)]
    else
      statuses
  }

  /** Closing twice closes once. */
  lemma ClosePreviousIdempotent(statuses: seq<Label>)
    ensures ClosePrevious(ClosePrevious(statuses)) == ClosePrevious(statuses)
  {
  }

  /** `compute_time_diff` (status6.py excludes Downtime, status7.py and
      status8.py also Off) and the inline rule of status4.py and status9.py
      (which excludes Standby and Downtime): the seconds between two
      stamps, only when both labels have the same base outside `excluded`. */
  function SameBaseDiff(prev: Option<int>, now: int, prevLabel: Label, cur: Label, excluded: set<Status>): (r: Option<int>)
    ensures r.Some? <==> prev.Some? && prevLabel.status == cur.status && cur.status !in excluded
    ensures r.Some? ==> r.value == now - prev.value
  {
    if prev.None? then None
    else if prevLabel.status == cur.status && prevLabel.status !in excluded then Some(now - prev.value)
    else None
  }
}
