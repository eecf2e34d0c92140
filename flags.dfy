/** The older, flag-based classifier of Dataframe.py and filter_one_log.py.
    Four booleans (`productive_active`, `idle_active`, `standby_active`,
    `downtime_active`) record which state is alive; `current_status` is
    set when a flag is raised and re-derived from the flags when a line
    matches nothing. Matching is case-sensitive and the first branch whose
    text occurs wins. */
module Flags {
  import opened Text
  import opened Labels
  import opened LogLine

  /** The trigger texts of the two cascades, as written. */
  const StartMarkBang := "(0)--Start Mark!--"
  const StartMarkWords := "Start Mark"
  const CuttingDone := "Successfully Cutting"
  const PlcStop := "Stop PLC!"
  const ZeroPlcStop := "(0)Stop PLC!"
  const StopButtonPressed := "The Software Stop Button is Pressed"
  const AlarmReset := "Alarm reset"
  const ProcessionStart := "----Start Procession: Manufacture----"
  const ErrMark := "Err:"

  /** `current_status`: a state name, or the lower-case "standby" that
      filter_one_log.py starts from and that no branch ever sets. */
  datatype Shown = Named(status: Status) | LowerStandby

  /** The four flags, one per state. */
  datatype Flag = ProductiveFlag | IdleFlag | StandbyFlag | DowntimeFlag

  function StateOf(f: Flag): Status {
    match f
    case ProductiveFlag => Productive
    case IdleFlag => Idle
    case StandbyFlag => Standby
    case DowntimeFlag => Downtime
  }

  /** The four `*_active` booleans. */
  datatype Active = Active(productive: bool, idle: bool, standby: bool, downtime: bool)

  const NoneActive := Active(false, false, false, false)

  function IsActive(a: Active, f: Flag): bool {
    match f
    case ProductiveFlag => a.productive
    case IdleFlag => a.idle
    case StandbyFlag => a.standby
    case DowntimeFlag => a.downtime
  }

  /** The tracking variables: status, flags and product name. */
  datatype Tracker = Tracker(status: Shown, active: Active, product: string)

  /** Dataframe.py's set-up of every file: "Idle", no product, no flag. */
  const FileStart := Tracker(Named(Idle), NoneActive, "")

  /** filter_one_log.py's set-up: the lower-case "standby", no product, no flag. */
  const FilterStart := Tracker(LowerStandby, NoneActive, "")

  /** What a branch of the cascade does. */
  datatype Move =
    | Raise(flag: Flag)   // set the status to the flag's state, raise it, lower the others
    | Lower(flag: Flag)   // lower one flag, status untouched
    | Hold                // the else branch: re-derive the status from the flags

  /** The branch Dataframe.py takes for a message; only the standby flag
      takes part in the choice. */
  function DataframeMove(standbyActive: bool, m: string): Move {
    if Contains(m, StartMarkBang) then Raise(ProductiveFlag)
    else if Contains(m, CuttingDone) then Lower(ProductiveFlag)
    else if Contains(m, PlcStop) then Raise(IdleFlag)
    else if Contains(m, StopButtonPressed) then Raise(IdleFlag)
    else if Contains(m, AlarmReset) then Lower(IdleFlag)
    else if Contains(m, ProcessionStart) then Raise(StandbyFlag)
    else if Contains(m, StartMarkWords) && standbyActive then Lower(StandbyFlag)
    else if Contains(m, ErrMark) then Raise(DowntimeFlag)
    else Hold
  }

  /** The branch filter_one_log.py takes for a kept message. Its first test
      is the bare "Start Mark", and the stop button has no branch. */
  function FilterMove(standbyActive: bool, m: string): Move {
    if Contains(m, StartMarkWords) then Raise(ProductiveFlag)
    else if Contains(m, CuttingDone) then Lower(ProductiveFlag)
    else if Contains(m, ZeroPlcStop) then Raise(IdleFlag)
    else if Contains(m, AlarmReset) then Lower(IdleFlag)
    else if Contains(m, ProcessionStart) then Raise(StandbyFlag)
    else if Contains(m, StartMarkWords) && standbyActive then Lower(StandbyFlag)
    else if Contains(m, ErrMark) then Raise(DowntimeFlag)
    else Hold
  }

  /** The else branch: the state of the first raised flag, in the order
      productive, idle, standby, downtime; the status as it was when none is. */
  function Maintain(t: Tracker): (u: Tracker)
    ensures u.active == t.active && u.product == t.product
    ensures t.active == NoneActive ==> u == t
  {
    if t.active.productive then t.(status := Named(Productive))
    else if t.active.idle then t.(status := Named(Idle))
    else if t.active.standby then t.(status := Named(Standby))
    else if t.active.downtime then t.(status := Named(Downtime))
    else t
  }

  /** The effect of a branch on the status and the flags. */
  function Effect(t: Tracker, mv: Move): (u: Tracker)
    ensures u.product == t.product
    ensures mv.Raise? ==> u.status == Named(StateOf(mv.flag))
                          && forall g :: IsActive(u.active, g) <==> g == mv.flag
    ensures mv.Lower? ==> u.status == t.status && !IsActive(u.active, mv.flag)
                          && forall g :: g != mv.flag ==> IsActive(u.active, g) == IsActive(t.active, g)
  {
    match mv
    case Raise(f) =>
      t.(status := Named(StateOf(f)),
         active := Active(f == ProductiveFlag, f == IdleFlag, f == StandbyFlag, f == DowntimeFlag))
    case Lower(f) =>
      t.(active := match f
                   case ProductiveFlag => t.active.(productive := false)
                   case IdleFlag => t.active.(idle := false)
                   case StandbyFlag => t.active.(standby := false)
                   case DowntimeFlag => t.active.(downtime := false))
    case Hold => Maintain(t)
  }

  /** `message.split("SetFileName File:")[-1].strip()` when the marker occurs. */
  function NewProduct(product: string, m: string): (p: string)
    ensures !Contains(m, ProductMarker) ==> p == product
    ensures Contains(m, ProductMarker) ==> p == ProductName(m) && !Contains(p, ProductMarker)
  {
    if Contains(m, ProductMarker) then ProductName(m) else product
  }

  /** One timestamped line of Dataframe.py: the product, then the cascade. */
  function DataframeLine(t: Tracker, m: string): Tracker {
    var u := t.(product := NewProduct(t.product, m));
    Effect(u, DataframeMove(u.active.standby, m))
  }

  /** One kept line of filter_one_log.py: the product, then the cascade. */
  function FilterLine(t: Tracker, m: string): Tracker {
    var u := t.(product := NewProduct(t.product, m));
    Effect(u, FilterMove(u.active.standby, m))
  }

  /** A state the flags can name: not one of the newer scripts' Off or
      "Software Closed". */
  predicate Flaggable(s: Shown) {
    s.Named? ==> s.status != Off && s.status != SoftwareClosed
  }

  /** At most one flag is raised, a raised flag's state is the status, and
      the status is one the two scripts can show. */
  predicate FlagInv(t: Tracker) {
    (forall f, g :: IsActive(t.active, f) && IsActive(t.active, g) ==> f == g)
    && (forall f :: IsActive(t.active, f) ==> t.status == Named(StateOf(f)))
    && Flaggable(t.status)
  }

  lemma StartsInv()
    ensures FlagInv(FileStart) && FlagInv(FilterStart)
  {
  }

  /** Every branch keeps the invariant. */
  lemma EffectInv(t: Tracker, mv: Move)
    requires FlagInv(t)
    ensures FlagInv(Effect(t, mv))
  {
    if mv.Hold? {
      if t.active.productive {
        assert IsActive(t.active, ProductiveFlag);
      } else if t.active.idle {
        assert IsActive(t.active, IdleFlag);
      } else if t.active.standby {
        assert IsActive(t.active, StandbyFlag);
      } else if t.active.downtime {
        assert IsActive(t.active, DowntimeFlag);
      }
    }
  }

  /** Under the invariant the else branch changes nothing: a raised flag
      already names the status, and with none raised it is kept. */
  lemma MaintainIsIdentity(t: Tracker)
    requires FlagInv(t)
    ensures Maintain(t) == t
  {
    if t.active.productive {
      assert IsActive(t.active, ProductiveFlag);
    } else if t.active.idle {
      assert IsActive(t.active, IdleFlag);
    } else if t.active.standby {
      assert IsActive(t.active, StandbyFlag);
    } else if t.active.downtime {
      assert IsActive(t.active, DowntimeFlag);
    }
  }

  lemma DataframeLineInv(t: Tracker, m: string)
    requires FlagInv(t)
    ensures FlagInv(DataframeLine(t, m))
  {
    var u := t.(product := NewProduct(t.product, m));
    EffectInv(u, DataframeMove(u.active.standby, m));
  }

  lemma FilterLineInv(t: Tracker, m: string)
    requires FlagInv(t)
    ensures FlagInv(FilterLine(t, m))
  {
    var u := t.(product := NewProduct(t.product, m));
    EffectInv(u, FilterMove(u.active.standby, m));
  }

  /** The three branches of Dataframe.py that only lower a flag leave the
      status as it was. */
  lemma DataframeClearingBranches(t: Tracker, m: string)
    requires !Contains(m, StartMarkBang)
    ensures Contains(m, CuttingDone) ==>
              DataframeLine(t, m).status == t.status && !DataframeLine(t, m).active.productive
    ensures !Contains(m, CuttingDone) && !Contains(m, PlcStop) && !Contains(m, StopButtonPressed)
            && Contains(m, AlarmReset) ==>
              DataframeLine(t, m).status == t.status && !DataframeLine(t, m).active.idle
    ensures !Contains(m, CuttingDone) && !Contains(m, PlcStop) && !Contains(m, StopButtonPressed)
            && !Contains(m, AlarmReset) && !Contains(m, ProcessionStart)
            && Contains(m, StartMarkWords) && t.active.standby ==>
              DataframeLine(t, m).status == t.status && !DataframeLine(t, m).active.standby
  {
  }

  /** First match wins: a Dataframe.py message with "Stop PLC!" and
      "Err:" but no earlier trigger makes the machine Idle, not Downtime. */
  lemma StopBeforeError(t: Tracker, m: string)
    requires Contains(m, PlcStop) && Contains(m, ErrMark)
    requires !Contains(m, StartMarkBang) && !Contains(m, CuttingDone)
    ensures DataframeLine(t, m).status == Named(Idle)
    ensures DataframeLine(t, m).active == Active(false, true, false, false)
  {
  }

  /** In filter_one_log.py every message with "Start Mark" is caught by the
      first test, so the "Start Mark"-while-standby branch is never taken:
      whatever the flags, a filter move never lowers the standby flag. */
  lemma FilterStartMarkBranchDead(standbyActive: bool, m: string)
    ensures Contains(m, StartMarkWords) ==> FilterMove(standbyActive, m) == Raise(ProductiveFlag)
    ensures FilterMove(standbyActive, m) != Lower(StandbyFlag)
  {
  }

  /** A kept filter_one_log.py message that contains none of the cascade's
      texts leaves status and flags as they were. */
  lemma FilterUntriggeredHolds(t: Tracker, m: string)
    requires FlagInv(t)
    requires !Contains(m, StartMarkWords) && !Contains(m, CuttingDone) && !Contains(m, ZeroPlcStop)
    requires !Contains(m, AlarmReset) && !Contains(m, ProcessionStart) && !Contains(m, ErrMark)
    ensures FilterLine(t, m) == t.(product := NewProduct(t.product, m))
  {
    MaintainIsIdentity(t.(product := NewProduct(t.product, m)));
  }

  /** The stop-button message contains none of those texts, so in
      filter_one_log.py it only holds the status (in Dataframe.py it makes
      the machine Idle). */
  lemma StopButtonOnlyHolds(t: Tracker)
    requires FlagInv(t)
    ensures FilterLine(t, StopButtonPressed) == t
    ensures DataframeLine(t, StopButtonPressed).status == Named(Idle)
  {
    StopButtonLacksStarts();
    StopButtonLacksStops();
    StopButtonLacksOthers();
    assert OccursAt(StopButtonPressed, StopButtonPressed, 0);
    FilterUntriggeredHolds(t, StopButtonPressed);
  }

  /** The stop-button message has none of these characters. */
  const AbsentChars := "MC(A-EFL"

  lemma StopButtonChars()
    ensures forall i :: 0 <= i < |StopButtonPressed| ==> StopButtonPressed[i] !in AbsentChars
  {
    forall i | 0 <= i < |StopButtonPressed| ensures StopButtonPressed[i] !in AbsentChars { }
  }

  /** Each trigger text has a character the stop-button message lacks. */
  lemma StopButtonLacksStarts()
    ensures !Contains(StopButtonPressed, StartMarkWords) && !Contains(StopButtonPressed, StartMarkBang)
    ensures !Contains(StopButtonPressed, ProcessionStart)
  {
    StopButtonChars();
    MissingCharNoOccurrence(StopButtonPressed, StartMarkWords, 6);
    MissingCharNoOccurrence(StopButtonPressed, StartMarkBang, 0);
    MissingCharNoOccurrence(StopButtonPressed, ProcessionStart, 0);
  }

  lemma StopButtonLacksStops()
    ensures !Contains(StopButtonPressed, ZeroPlcStop) && !Contains(StopButtonPressed, PlcStop)
    ensures !Contains(StopButtonPressed, CuttingDone)
  {
    StopButtonChars();
    MissingCharNoOccurrence(StopButtonPressed, ZeroPlcStop, 0);
    MissingCharNoOccurrence(StopButtonPressed, PlcStop, 6);
    MissingCharNoOccurrence(StopButtonPressed, CuttingDone, 13);
  }

  lemma StopButtonLacksOthers()
    ensures !Contains(StopButtonPressed, AlarmReset) && !Contains(StopButtonPressed, ErrMark)
    ensures !Contains(StopButtonPressed, ProductMarker)
  {
    StopButtonChars();
    MissingCharNoOccurrence(StopButtonPressed, AlarmReset, 0);
    MissingCharNoOccurrence(StopButtonPressed, ErrMark, 0);
    MissingCharNoOccurrence(StopButtonPressed, ProductMarker, 3);
  }

  /** The texts whose branches set the status in filter_one_log.py. */
  predicate FilterRaises(m: string) {
    Contains(m, StartMarkWords) || Contains(m, ZeroPlcStop) || Contains(m, ProcessionStart) || Contains(m, ErrMark)
  }

  /** The lower-case "standby" survives every line without a setting
      text: with it no flag can be up, and the other branches keep it. */
  lemma LowerStandbyPersists(t: Tracker, m: string)
    requires FlagInv(t) && t.status == LowerStandby && !FilterRaises(m)
    ensures FilterLine(t, m).status == LowerStandby && forall f :: !IsActive(FilterLine(t, m).active, f)
  {
    assert !IsActive(t.active, ProductiveFlag) && !IsActive(t.active, IdleFlag);
    assert !IsActive(t.active, StandbyFlag) && !IsActive(t.active, DowntimeFlag);
  }
}
