/** The per-line trigger cascade every status script runs on a message:
    the label the line gets, the base state carried forward, whether the
    previous label is closed retroactively first, and what happens to the
    power flag. */
module Classifier {
  import opened Options
  import opened Text
  import opened Labels

  const CloseSoftware := "**************Close Software**************"
  const StartPcb := "|*************Start PCB*************|"
  const StartMark := "(0)--start mark!--"
  const Cutting := "successfully cutting"
  const StopPlc := "(0)stop plc!"
  const StopButton := "the software stop button is pressed"
  const Alarm := "alarm"
  const Reset := "reset"
  const Procession := "start procession"
  const Manufacture := "manufacture"
  const ErrTag := "err:"

  /** `FALLBACK_STATUS`: the state a self-closing trigger returns to. */
  const Fallback := Standby

  /** What a line does to `machine_powered_on`. */
  datatype Power = Keep | PowerOff | PowerOn

  /** The outcome of the cascade for one message. */
  datatype Transition = Transition(closePrevious: bool, newLabel: Label, newBase: Status, power: Power)

  /** A trigger that opens a state: it closes the previous label unless the
      old base is Downtime, and the line is labelled "Start <state>". */
  function Opening(backup: Status, st: Status): Transition {
    Transition(backup != Downtime, Start(st), st, Keep)
  }

  /** The labels a script can store: bare labels, and "Start"/"End" only
      of a state that `end_previous_status` closes. */
  predicate Storable(l: Label) {
    l.Bare? || IsOpenable(l.status)
  }

  /** The cascade shared by all status scripts, from "(0)--start mark!--"
      down to the no-trigger fallback. Matching is on the lower-cased
      message, and the "start procession" test on it stripped of dashes,
      spaces and whitespace. */
  function Triggers(backup: Status, message: string): (t: Transition)
    ensures t.power == Keep
    ensures Storable(t.newLabel)
    ensures t.newBase == backup || IsOpenable(t.newBase)
    ensures t.closePrevious ==> backup != Downtime
    ensures t.newLabel.Start? ==> t.closePrevious == (backup != Downtime) && t.newBase == t.newLabel.status
    ensures t.newLabel.End? ==> !t.closePrevious && t.newBase == Fallback && backup == t.newLabel.status
    ensures t.newLabel.Bare? ==> !t.closePrevious && t.newBase == backup
                                 && (t.newLabel.status == Downtime || t.newLabel.status == backup)
  {
    var lower := Lower(message);
    if Contains(lower, StartMark) then Opening(backup, Productive)
    else if Contains(lower, Cutting) && backup == Productive then Transition(false, End(Productive), Fallback, Keep)
    else if Contains(lower, StopPlc) || Contains(lower, StopButton) then Opening(backup, Idle)
    else if Contains(lower, Alarm) && Contains(lower, Reset) && backup == Idle then Transition(false, End(Idle), Fallback, Keep)
    else
      var temp := Strip(StripSet(lower, {'-', ' '}));
      if Contains(temp, Procession) && Contains(temp, Manufacture) then Opening(backup, Standby)
      else if Contains(lower, ErrTag) then Transition(false, Bare(Downtime), backup, Keep)
      else Transition(false, Bare(backup), backup, Keep)
  }

  /** The cascade of status7.py and status8.py: an exact Close Software line
      switches the machine off into the Off state, an exact Start PCB line
      switches it on into Standby; everything else goes to the shared cascade. */
  function ClassifyOffAware(backup: Status, message: string): (t: Transition)
    ensures Storable(t.newLabel)
    ensures t.newBase == backup || IsOpenable(t.newBase) || t.newBase == Off
    ensures t.closePrevious ==> backup != Downtime
    ensures t.power == PowerOff ==> t.closePrevious == (backup != Downtime && backup != Off)
    ensures t.power == PowerOff <==> Strip(message) == CloseSoftware
    ensures t.power == PowerOn <==> Strip(message) != CloseSoftware && Strip(message) == StartPcb
    ensures t.power == PowerOff ==> t.newLabel == Bare(Off) && t.newBase == Off
    ensures t.power == PowerOn ==> t.newLabel == Bare(Fallback) && t.newBase == Fallback && !t.closePrevious
  {
    var clean := Strip(message);
    if clean == CloseSoftware then Transition(backup != Downtime && backup != Off, Bare(Off), Off, PowerOff)
    else if clean == StartPcb then Transition(false, Bare(Fallback), Fallback, PowerOn)
    else Triggers(backup, message)
  }

  /** The cascade of status6.py: Close Software labels the line
      "Software Closed" and Start PCB repeats the current state; neither
      changes the base. */
  function ClassifyClosedLabel(backup: Status, message: string): (t: Transition)
    ensures Storable(t.newLabel)
    ensures t.newBase == backup || IsOpenable(t.newBase)
    ensures t.closePrevious ==> backup != Downtime
    ensures t.power == PowerOff <==> Strip(message) == CloseSoftware
    ensures t.power == PowerOn <==> Strip(message) != CloseSoftware && Strip(message) == StartPcb
    ensures t.power == PowerOff ==> t.newLabel == Bare(SoftwareClosed) && t.newBase == backup
                                    && t.closePrevious == (backup != Downtime)
    ensures t.power == PowerOn ==> t.newLabel == Bare(backup) && t.newBase == backup && !t.closePrevious
  {
    var clean := Strip(message);
    if clean == CloseSoftware then Transition(backup != Downtime, Bare(SoftwareClosed), backup, PowerOff)
    else if clean == StartPcb then Transition(false, Bare(backup), backup, PowerOn)
    else Triggers(backup, message)
  }

  /** The first trigger wins: a start mark opens Productive whatever else
      the message says. */
  lemma StartMarkFirst(backup: Status, message: string)
    requires Contains(Lower(message), StartMark)
    ensures Triggers(backup, message) == Transition(backup != Downtime, Start(Productive), Productive, Keep)
  {
  }

  /** "successfully cutting" closes a Productive run on its own line, and
      only when the old state is Productive and no start mark outranks it. */
  lemma CuttingClosesProductive(backup: Status, message: string)
    ensures Triggers(backup, message).newLabel == End(Productive) <==>
              backup == Productive && !Contains(Lower(message), StartMark) && Contains(Lower(message), Cutting)
  {
  }

  /** "alarm" with "reset" closes an Idle run on its own line, only from
      Idle and only when no earlier trigger fires. */
  lemma AlarmResetClosesIdle(backup: Status, message: string)
    ensures Triggers(backup, message).newLabel == End(Idle) <==>
              backup == Idle && !Contains(Lower(message), StartMark)
              && !Contains(Lower(message), StopPlc) && !Contains(Lower(message), StopButton)
              && Contains(Lower(message), Alarm) && Contains(Lower(message), Reset)
  {
  }

  /** A message that holds no trigger repeats the old state and leaves it. */
  lemma NoTriggerRepeats(backup: Status, message: string)
    requires !Contains(Lower(message), StartMark) && !Contains(Lower(message), Cutting)
    requires !Contains(Lower(message), StopPlc) && !Contains(Lower(message), StopButton)
    requires !Contains(Lower(message), Alarm) && !Contains(Lower(message), Procession)
    requires !Contains(Lower(message), ErrTag)
    ensures Triggers(backup, message) == Transition(false, Bare(backup), backup, Keep)
  {
    ProcessionIgnoresStrip(Lower(message));
  }

  /** "(0)stop plc!" or "the software stop button is pressed" opens Idle
      exactly when no start mark outranks it and no cutting line closes a
      Productive run first. */
  lemma StopOpensIdle(backup: Status, message: string)
    ensures Triggers(backup, message).newLabel == Start(Idle) <==>
              !Contains(Lower(message), StartMark) && !(Contains(Lower(message), Cutting) && backup == Productive)
              && (Contains(Lower(message), StopPlc) || Contains(Lower(message), StopButton))
  {
  }

  /** An "err:" line is a one-line Downtime: the state after it is the
      state before it, and nothing is closed. Once the earlier branches have
      failed, a Downtime label comes exactly from "err:" (or from repeating
      a Downtime state, which no script carries). */
  lemma ErrorIsOneLine(backup: Status, message: string)
    ensures Triggers(backup, message).newLabel == Bare(Downtime) ==>
              Triggers(backup, message).newBase == backup && !Triggers(backup, message).closePrevious
    ensures !Contains(Lower(message), StartMark)
            && !(Contains(Lower(message), Cutting) && backup == Productive)
            && !Contains(Lower(message), StopPlc) && !Contains(Lower(message), StopButton)
            && !(Contains(Lower(message), Alarm) && Contains(Lower(message), Reset) && backup == Idle)
            && !(Contains(Lower(message), Procession) && Contains(Lower(message), Manufacture)) ==>
              (Triggers(backup, message).newLabel == Bare(Downtime) <==> Contains(Lower(message), ErrTag) || backup == Downtime)
  {
    ProcessionIgnoresStrip(Lower(message));
  }

  /** Stripping dashes, spaces and whitespace from the ends of a message
      cannot change whether "start procession" or "manufacture" occurs in it,
      since neither begins or ends with such a character. */
  lemma ProcessionIgnoresStrip(lower: string)
    ensures Contains(Strip(StripSet(lower, {'-', ' '})), Procession) <==> Contains(lower, Procession)
    ensures Contains(Strip(StripSet(lower, {'-', ' '})), Manufacture) <==> Contains(lower, Manufacture)
  {
    var dashed := StripSet(lower, {'-', ' '});
    ContainsAfterStripSet(lower, Procession, {'-', ' '});
    ContainsAfterStripSet(dashed, Procession, Whitespace);
    ContainsAfterStripSet(lower, Manufacture, {'-', ' '});
    ContainsAfterStripSet(dashed, Manufacture, Whitespace);
  }

  /** So the procession trigger is decided on the lower-cased message alone. */
  lemma ProcessionTrigger(backup: Status, message: string)
    requires !Contains(Lower(message), StartMark)
    requires !(Contains(Lower(message), Cutting) && backup == Productive)
    requires !Contains(Lower(message), StopPlc) && !Contains(Lower(message), StopButton)
    requires !(Contains(Lower(message), Alarm) && Contains(Lower(message), Reset) && backup == Idle)
    ensures Triggers(backup, message).newLabel == Start(Standby) <==>
              Contains(Lower(message), Procession) && Contains(Lower(message), Manufacture)
  {
    ProcessionIgnoresStrip(Lower(message));
  }
}
