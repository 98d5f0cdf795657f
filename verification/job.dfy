/** A job that the alarm owns: single-flight, a cooldown between arms, and superseded drains. */
module Job {
  import opened Wrappers
  import Alarm

  datatype State =
    | Idle
    | Skipped(reason: string)
    | Running(startedAt: int)
    | Done(exitCode: int, finishedAt: int)
    | Failed(finishedAt: int, error: string)

  predicate Rearmable(s: State) {
    s.Done? || s.Failed?
  }

  datatype Arming = Declined | Armed(stamp: int) | Threw

  /** The write of an arm that fails, if one does: the record, the stamp, the floor, or the schedule. */
  datatype Fault = NoFault | AtRecord | AtStamp | AtFloor | AtSchedule(alarmOnly: bool)

  /** What arming reads and meets: two readings of the clock, a fault, and whether its unwinding writes go through. */
  datatype Moment = Moment(first: int, second: int, fault: Fault, restores: bool, deletes: bool)

  /** A record that has stood so long that its owner is presumed gone. */
  predicate IsStale(startedAt: int, timeoutMs: int, staleMs: int, now: int) {
    now - startedAt > timeoutMs + staleMs
  }

  /** Whether a new run may start. */
  predicate Claims(s: State, timeoutMs: int, staleMs: int, takeOver: Option<int>, now: int) {
    !s.Running? || takeOver == Some(s.startedAt) || IsStale(s.startedAt, timeoutMs, staleMs, now)
  }

  /** The job's own rows. */
  datatype Rows = Rows(state: State, armed: Option<int>, lastArmed: Option<int>)

  predicate CoolingDown(r: Rows, cooldownMs: int, now: int) {
    r.lastArmed.Some? && now - r.lastArmed.value < cooldownMs
  }

  predicate Declines(r: Rows, cooldownMs: int, m: Moment) {
    !Rearmable(r.state) || CoolingDown(r, cooldownMs, m.first)
  }

  /** What arming leaves in the job's rows. Only a failed schedule is unwound, and only the floor outlives it. */
  function ArmedRows(r: Rows, cooldownMs: int, m: Moment): Rows {
    if Declines(r, cooldownMs, m) then r
    else
      match m.fault
      case AtRecord => r
      case AtStamp => r.(state := Running(m.second))
      case AtFloor => r.(state := Running(m.second), armed := Some(m.second))
      case NoFault => Rows(Running(m.second), Some(m.second), Some(m.second))
      case AtSchedule(_) =>
        if !m.restores then Rows(Running(m.second), Some(m.second), Some(m.second))
        else Rows(r.state, if m.deletes then None else Some(m.second), Some(m.second))
  }

  function ArmingOf(r: Rows, cooldownMs: int, m: Moment): Arming {
    if Declines(r, cooldownMs, m) then Declined else if m.fault.NoFault? then Armed(m.second) else Threw
  }

  class JobLifecycle {
    const id: string
    const cooldownMs: int
    const wake: Alarm.WakeMap
    var state: State
    var armed: Option<int>
    var lastArmed: Option<int>

    constructor (id: string, cooldownMs: int, wake: Alarm.WakeMap)
      requires id != "" && id != Alarm.WAKE_KEY
      ensures this.id == id && this.cooldownMs == cooldownMs && this.wake == wake
      ensures View() == Rows(Idle, None, None)
    {
      this.id, this.cooldownMs, this.wake := id, cooldownMs, wake;
      state, armed, lastArmed := Idle, None, None;
    }

    function View(): Rows
      reads this
    {
      Rows(state, armed, lastArmed)
    }

    function RunIntent(): string {
      id + "-run"
    }

    /**
     * The placeholder, its stamp, the floor and the alarm, in that order. When it
     * returns a stamp they all agree on it.
     */
    method Arm(m: Moment) returns (r: Arming)
      modifies this, wake
      ensures View() == ArmedRows(old(View()), cooldownMs, m)
      ensures r == ArmingOf(old(View()), cooldownMs, m)
      ensures r.Declined? ==> wake.intents == old(wake.intents) && wake.alarm == old(wake.alarm)
      ensures r.Armed? ==>
        && state == Running(r.stamp) && armed == Some(r.stamp)
        && RunIntent() in wake.intents && wake.intents[RunIntent()].notBefore == r.stamp
        && wake.alarm.Some? && wake.alarm.value <= r.stamp
      ensures forall k :: k != RunIntent() ==>
        (k in wake.intents <==> k in old(wake.intents)) && (k in wake.intents ==> wake.intents[k] == old(wake.intents)[k])
      ensures m.fault.AtRecord? || m.fault.AtStamp? || m.fault.AtFloor? ==> wake.intents == old(wake.intents) && wake.alarm == old(wake.alarm)
    {
      if !Rearmable(state) {
        return Declined;
      }
      if lastArmed.Some? && m.first - lastArmed.value < cooldownMs {
        return Declined;
      }
      var before := state;
      var armedAt := m.second;
      if m.fault.AtRecord? {
        return Threw;
      }
      state := Running(armedAt);
      if m.fault.AtStamp? {
        return Threw;
      }
      armed := Some(armedAt);
      if m.fault.AtFloor? {
        return Threw;
      }
      lastArmed := Some(armedAt);
      var wakeFault := if m.fault.NoFault? then Alarm.NoFault else if m.fault.alarmOnly then Alarm.BeforeAlarm else Alarm.BeforePut;
      var ok := wake.Set(Alarm.Intent(RunIntent(), armedAt, None), wakeFault);
      if !ok {
        if !m.restores {
          return Threw;
        }
        state := before;
        if m.deletes {
          armed := None;
        }
        return Threw;
      }
      r := Armed(armedAt);
    }
  }

  /**
   * An arm is declined exactly of a job that never ran, was skipped or is running, and
   * of one whose last arm is less than a cooldown ago; it then writes nothing. Any
   * other returns the second reading of the clock, unless a write fails.
   */
  lemma DeclinedExactlyWhen(r: Rows, cooldownMs: int, m: Moment)
    ensures ArmingOf(r, cooldownMs, m).Declined? <==>
      || (!r.state.Done? && !r.state.Failed?)
      || (r.lastArmed.Some? && m.first < r.lastArmed.value + cooldownMs)
    ensures ArmingOf(r, cooldownMs, m).Declined? ==> ArmedRows(r, cooldownMs, m) == r
    ensures !ArmingOf(r, cooldownMs, m).Declined? ==> (ArmingOf(r, cooldownMs, m) == Armed(m.second) <==> m.fault == NoFault)
  {}

  /**
   * An arm that throws leaves a record that can be armed again exactly when its
   * very first write failed, or when the schedule failed and the record could be
   * put back. After the second or third write it leaves a running record that
   * nothing will run.
   */
  lemma ThrowingArmUnwindsExactlyWhen(r: Rows, cooldownMs: int, m: Moment)
    requires ArmingOf(r, cooldownMs, m).Threw?
    ensures Rearmable(ArmedRows(r, cooldownMs, m).state) <==> m.fault.AtRecord? || (m.fault.AtSchedule? && m.restores)
    ensures Rearmable(ArmedRows(r, cooldownMs, m).state) <==> ArmedRows(r, cooldownMs, m).state == r.state
  {
    if m.fault.AtStamp? || m.fault.AtFloor? {
      assert ArmedRows(r, cooldownMs, m).state == Running(m.second);
    }
  }

  /** A concrete one: the floor could not be written, and every later arm is declined. */
  lemma AFailedFloorStrandsTheJob(cooldownMs: int, error: string, later: Moment)
    ensures
      var r := ArmedRows(Rows(Failed(0, error), None, None), cooldownMs, Moment(1, 1, AtFloor, true, true));
      r.state == Running(1) && r.lastArmed == None && ArmingOf(r, cooldownMs, later) == Declined
  {}

  // ---- single flight -------------------------------------------------------------------------

  /**
   * After an arm only the alarm that presents its stamp may start a run, until the
   * record has stood for the job's budget and the staleness bound.
   */
  lemma OnlyTheArmedRunStarts(r: Rows, cooldownMs: int, m: Moment, timeoutMs: int, staleMs: int, takeOver: Option<int>, now: int)
    requires ArmingOf(r, cooldownMs, m).Armed?
    ensures
      var stamp := ArmingOf(r, cooldownMs, m).stamp;
      Claims(ArmedRows(r, cooldownMs, m).state, timeoutMs, staleMs, takeOver, now) <==>
        takeOver == ArmedRows(r, cooldownMs, m).armed || now > stamp + timeoutMs + staleMs
  {}

  /** And nobody else arms over it: a second arm is declined while the record says running. */
  lemma ArmingIsSingleFlight(r: Rows, cooldownMs: int, m: Moment, n: Moment)
    requires ArmingOf(r, cooldownMs, m).Armed?
    ensures ArmingOf(ArmedRows(r, cooldownMs, m), cooldownMs, n) == Declined
  {}

  // ---- the cooldown over any run ---------------------------------------------------------------

  /** What happens to the rows: arms, and whatever the runs write about themselves. */
  datatype Event = Arms(m: Moment) | Writes(state: State) | ClearsArmed

  function After(r: Rows, cooldownMs: int, events: seq<Event>): Rows
    decreases events
  {
    if events == [] then r
    else
      var s := After(r, cooldownMs, events[..|events| - 1]);
      match events[|events| - 1]
      case Arms(m) => ArmedRows(s, cooldownMs, m)
      case Writes(state) => s.(state := state)
      case ClearsArmed => s.(armed := None)
  }

  /** The arms that got as far as the floor: those that returned a stamp, and those whose schedule failed. */
  predicate SetsFloor(m: Moment) {
    m.fault.NoFault? || m.fault.AtSchedule?
  }

  /** Their stamps. */
  function Stamps(r: Rows, cooldownMs: int, events: seq<Event>): seq<int>
    decreases events
  {
    if events == [] then []
    else
      var n := |events| - 1;
      var before := After(r, cooldownMs, events[..n]);
      Stamps(r, cooldownMs, events[..n])
      + (if events[n].Arms? && !Declines(before, cooldownMs, events[n].m) && SetsFloor(events[n].m) then [events[n].m.second] else [])
  }

  /** Within one arm the clock does not run backwards. */
  ghost predicate Steady(events: seq<Event>) {
    forall i :: 0 <= i < |events| && events[i].Arms? ==> events[i].m.first <= events[i].m.second
  }

  lemma {:induction false} LastStampIsTheFloor(r: Rows, cooldownMs: int, events: seq<Event>)
    ensures
      var stamps := Stamps(r, cooldownMs, events);
      After(r, cooldownMs, events).lastArmed == if stamps == [] then r.lastArmed else Some(stamps[|stamps| - 1])
    decreases events
  {
    if events != [] {
      LastStampIsTheFloor(r, cooldownMs, events[..|events| - 1]);
    }
  }

  /** Over any writes and faults in between, two arms that set the floor are a cooldown apart. */
  lemma {:induction false} ArmsAreACooldownApart(r: Rows, cooldownMs: int, events: seq<Event>, i: nat)
    requires Steady(events)
    requires i + 1 < |Stamps(r, cooldownMs, events)|
    ensures Stamps(r, cooldownMs, events)[i + 1] >= Stamps(r, cooldownMs, events)[i] + cooldownMs
    decreases events
  {
    var n := |events| - 1;
    var rest := Stamps(r, cooldownMs, events[..n]);
    LastStampIsTheFloor(r, cooldownMs, events[..n]);
    if i + 1 < |rest| {
      ArmsAreACooldownApart(r, cooldownMs, events[..n], i);
    }
  }

  // ---- superseded drains -------------------------------------------------------------------------

  /** The context row moves to a run's stamp, or a drain asks whether it still owns the record. */
  datatype Turn = Puts(stamp: int) | Asks

  /** A drain's closure and the row it reads. */
  datatype Drain = Drain(context: Option<int>, superseded: bool)

  function StillMine(d: Drain, stamp: int): bool {
    !d.superseded && d.context == Some(stamp)
  }

  function Turned(d: Drain, stamp: int, t: Turn): Drain {
    match t
    case Puts(s) => d.(context := Some(s))
    case Asks => d.(superseded := !StillMine(d, stamp))
  }

  function TurnedAll(d: Drain, stamp: int, turns: seq<Turn>): Drain
    decreases turns
  {
    if turns == [] then d else Turned(TurnedAll(d, stamp, turns[..|turns| - 1]), stamp, turns[|turns| - 1])
  }

  /** The closure a drain holds: a stamp captured once, and a latch. */
  class Generation {
    const startedAt: int
    var superseded: bool

    constructor (startedAt: int)
      ensures this.startedAt == startedAt && !superseded
    {
      this.startedAt, superseded := startedAt, false;
    }

    method AskStillMine(context: Option<int>) returns (mine: bool)
      modifies this
      ensures mine == StillMine(Drain(context, old(superseded)), startedAt)
      ensures Drain(context, superseded) == Turned(Drain(context, old(superseded)), startedAt, Asks)
    {
      if superseded {
        return false;
      }
      if context == Some(startedAt) {
        return true;
      }
      superseded := true;
      return false;
    }
  }

  /** Ownership that was denied once is never given back, even when the stamp matches again. */
  lemma {:induction false} SupersededForGood(d: Drain, stamp: int, turns: seq<Turn>)
    requires d.superseded
    ensures TurnedAll(d, stamp, turns).superseded && !StillMine(TurnedAll(d, stamp, turns), stamp)
    decreases turns
  {
    if turns != [] {
      SupersededForGood(d, stamp, turns[..|turns| - 1]);
    }
  }

  /** With distinct stamps that holds even of a drain that has not asked yet. */
  lemma {:induction false} DisplacedForGood(d: Drain, stamp: int, turns: seq<Turn>)
    requires d.context != Some(stamp)
    requires forall i :: 0 <= i < |turns| ==> turns[i] != Puts(stamp)
    ensures TurnedAll(d, stamp, turns).context != Some(stamp) && !StillMine(TurnedAll(d, stamp, turns), stamp)
    decreases turns
  {
    if turns != [] {
      DisplacedForGood(d, stamp, turns[..|turns| - 1]);
    }
  }

  /** What the context row holds after some turns. */
  function ContextAfter(context: Option<int>, turns: seq<Turn>): Option<int>
    decreases turns
  {
    if turns == [] then context
    else
      match turns[|turns| - 1]
      case Puts(s) => Some(s)
      case Asks => ContextAfter(context, turns[..|turns| - 1])
  }

  /**
   * Over any turns a drain owns the record exactly when the row holds its stamp now
   * and held it every time it asked. So a repeated stamp gives the record back to a
   * drain that did not ask in between.
   */
  lemma {:induction false} OwnsExactlyWhen(d: Drain, stamp: int, turns: seq<Turn>)
    requires !d.superseded
    ensures StillMine(TurnedAll(d, stamp, turns), stamp) <==>
      && ContextAfter(d.context, turns) == Some(stamp)
      && forall i :: 0 <= i < |turns| && turns[i].Asks? ==> ContextAfter(d.context, turns[..i]) == Some(stamp)
    ensures TurnedAll(d, stamp, turns).context == ContextAfter(d.context, turns)
    ensures TurnedAll(d, stamp, turns).superseded <==>
      exists i :: 0 <= i < |turns| && turns[i].Asks? && ContextAfter(d.context, turns[..i]) != Some(stamp)
    decreases turns
  {
    if turns != [] {
      var n := |turns| - 1;
      OwnsExactlyWhen(d, stamp, turns[..n]);
      assert forall i :: 0 <= i <= n ==> turns[..n][..i] == turns[..i];
      assert forall i :: 0 <= i < n ==> turns[..n][i] == turns[i];
    }
  }

  // ---- the rows themselves --------------------------------------------------------------------------

  function RowsOf(id: string): seq<string> {
    [id, id + ":armed", id + ":last-armed", id + ":context"]
  }

  /** A job's four rows are different rows, and none is the wake map's, exactly when its id is not that row's key. */
  lemma JobRowsAreItsOwn(id: string)
    ensures forall i, j :: 0 <= i < j < 4 ==> RowsOf(id)[i] != RowsOf(id)[j]
    ensures Alarm.WAKE_KEY !in RowsOf(id) <==> id != Alarm.WAKE_KEY
  {
    var a, l, c := id + ":armed", id + ":last-armed", id + ":context";
    assert |a| == |id| + 6 && |l| == |id| + 11 && |c| == |id| + 8;
    assert a[|id|] == ':' && l[|id|] == ':' && c[|id|] == ':';
    assert forall i :: 0 <= i < 4 ==> Alarm.WAKE_KEY[i] != ':';
    assert RowsOf(id)[0] == id;
  }
}
