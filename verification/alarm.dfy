/** Many deadlines over a Durable Object's one alarm. */
module Alarm {
  import opened Wrappers

  /** The storage row that holds every intent. */
  const WAKE_KEY := "wake"
  const WAKE_REPAIR_MS := 60000

  datatype Intent = Intent(key: string, notBefore: int, attempt: Option<nat>)

  type Intents = map<string, Intent>

  /** Where a write to storage stopped, when it did. */
  datatype Fault = NoFault | BeforePut | BeforeAlarm

  ghost predicate IsEarliest(intents: Intents, e: int) {
    (exists k :: k in intents && intents[k].notBefore == e) && forall k :: k in intents ==> e <= intents[k].notBefore
  }

  /** An idle object has no alarm, and any other one wakes no later than its earliest deadline. */
  ghost predicate Armed(intents: Intents, alarm: Option<int>) {
    if intents == map[] then alarm.None?
    else alarm.Some? && forall k :: k in intents ==> alarm.value <= intents[k].notBefore
  }

  /** What re-arming makes of an alarm: earlier if it must be, never later, and none for an empty map. */
  ghost predicate Rearmed(intents: Intents, before: Option<int>, after: Option<int>) {
    && Armed(intents, after)
    && (intents != map[] ==> IsEarliest(intents, after.value) || after == before)
    && (intents != map[] && before.Some? ==> after.value <= before.value)
  }

  class WakeMap {
    var intents: Intents
    var alarm: Option<int>

    constructor ()
      ensures intents == map[] && alarm == None
    {
      intents, alarm := map[], None;
    }

    /** The earliest deadline of a map that has one. */
    method Earliest() returns (e: int)
      requires intents != map[]
      ensures IsEarliest(intents, e)
    {
      var first :| first in intents;
      e := intents[first].notBefore;
      var rest := intents.Keys - {first};
      while rest != {}
        invariant rest <= intents.Keys
        invariant exists k :: k in intents && k !in rest && intents[k].notBefore == e
        invariant forall k :: k in intents && k !in rest ==> e <= intents[k].notBefore
        decreases rest
      {
        var k :| k in rest;
        if intents[k].notBefore < e {
          e := intents[k].notBefore;
        }
        rest := rest - {k};
      }
    }

    method Rearm()
      modifies this`alarm
      ensures Rearmed(intents, old(alarm), alarm)
    {
      if |intents| == 0 {
        alarm := None;
        return;
      }
      var earliest := Earliest();
      if alarm.None? || alarm.value > earliest {
        alarm := Some(earliest);
      }
    }

    /** Two writes to storage; either may be the one that fails. */
    method Set(intent: Intent, fault: Fault) returns (ok: bool)
      modifies this
      ensures ok == fault.NoFault?
      ensures intents == if fault.BeforePut? then old(intents) else old(intents)[intent.key := intent]
      ensures ok ==> Rearmed(intents, old(alarm), alarm)
      ensures !ok ==> alarm == old(alarm)
    {
      if fault.BeforePut? {
        return false;
      }
      intents := intents[intent.key := intent];
      if fault.BeforeAlarm? {
        return false;
      }
      Rearm();
      ok := true;
    }

    /** Clearing a key that is not held does nothing at all. */
    method Clear(key: string)
      modifies this
      ensures intents == old(intents) - {key}
      ensures if key in old(intents) then Rearmed(intents, old(alarm), alarm) else alarm == old(alarm)
    {
      if key !in intents {
        assert intents - {key} == intents;
        return;
      }
      intents := intents - {key};
      Rearm();
    }

    /** Every intent whose time has come, each once, earliest first. */
    method Due(now: int) returns (due: seq<Intent>)
      requires forall k :: k in intents ==> intents[k].key == k
      ensures forall i :: i in due <==> i.key in intents && intents[i.key] == i && i.notBefore <= now
      ensures forall i, j :: 0 <= i < j < |due| ==> due[i].notBefore <= due[j].notBefore
      ensures forall i, j :: 0 <= i < j < |due| ==> due[i].key != due[j].key
    {
      due := [];
      var rest := intents.Keys;
      while rest != {}
        invariant rest <= intents.Keys
        invariant forall i :: i in due <==> i.key in intents && i.key !in rest && intents[i.key] == i && i.notBefore <= now
        invariant forall i, j :: 0 <= i < j < |due| ==> due[i].notBefore <= due[j].notBefore
        invariant forall i, j :: 0 <= i < j < |due| ==> due[i].key != due[j].key
        decreases rest
      {
        var k :| k in rest;
        rest := rest - {k};
        if intents[k].notBefore <= now {
          InsertedIsSorted(intents[k], due);
          due := Inserted(intents[k], due);
        }
      }
    }

    method Repair(now: int)
      modifies this`alarm
      ensures alarm == if old(alarm).None? then Some(now + WAKE_REPAIR_MS) else old(alarm)
    {
      if alarm.None? {
        alarm := Some(now + WAKE_REPAIR_MS);
      }
    }
  }

  function Inserted(x: Intent, due: seq<Intent>): seq<Intent>
    decreases due
  {
    if due == [] || x.notBefore < due[0].notBefore then [x] + due else [due[0]] + Inserted(x, due[1..])
  }

  lemma {:induction false} InsertedIsSorted(x: Intent, due: seq<Intent>)
    requires forall i, j :: 0 <= i < j < |due| ==> due[i].notBefore <= due[j].notBefore
    requires forall i, j :: 0 <= i < j < |due| ==> due[i].key != due[j].key
    requires forall i :: 0 <= i < |due| ==> due[i].key != x.key
    ensures forall y :: y in Inserted(x, due) <==> y == x || y in due
    ensures forall i, j :: 0 <= i < j < |Inserted(x, due)| ==> Inserted(x, due)[i].notBefore <= Inserted(x, due)[j].notBefore
    ensures forall i, j :: 0 <= i < j < |Inserted(x, due)| ==> Inserted(x, due)[i].key != Inserted(x, due)[j].key
    decreases due
  {
    if due != [] && x.notBefore >= due[0].notBefore {
      var tail := due[1..];
      InsertedIsSorted(x, tail);
      var rest := Inserted(x, tail);
      forall i | 0 <= i < |rest|
        ensures due[0].notBefore <= rest[i].notBefore && due[0].key != rest[i].key
      {
        assert rest[i] in rest;
        assert rest[i] == x || rest[i] in tail;
        forall j | 0 <= j < |tail|
          ensures due[0].notBefore <= tail[j].notBefore && due[0].key != tail[j].key
        {
          assert tail[j] == due[j + 1];
        }
      }
      assert forall i :: i in due <==> i == due[0] || i in tail;
    }
  }

  // ---- no lost wake-up over any sequence ------------------------------------------------------

  /** What storage goes through: the map's own operations, faults included, and the alarm's firings. */
  datatype Op = Setting(intent: Intent, fault: Fault) | Clearing(key: string) | Firing | Repairing(now: int)

  datatype Row = Row(intents: Intents, alarm: Option<int>)

  /** One operation, as the class performs it; an alarm that has fired is gone from storage. */
  ghost predicate Steps(r: Row, op: Op, t: Row) {
    match op
    case Setting(intent, fault) =>
      && t.intents == (if fault.BeforePut? then r.intents else r.intents[intent.key := intent])
      && if fault.NoFault? then Rearmed(t.intents, r.alarm, t.alarm) else t.alarm == r.alarm
    case Clearing(key) =>
      && t.intents == r.intents - {key}
      && if key in r.intents then Rearmed(t.intents, r.alarm, t.alarm) else t.alarm == r.alarm
    case Firing => t == r.(alarm := None)
    case Repairing(now) => t == r.(alarm := if r.alarm.None? then Some(now + WAKE_REPAIR_MS) else r.alarm)
  }

  ghost predicate Runs(rows: seq<Row>, ops: seq<Op>) {
    |rows| == |ops| + 1 && forall i :: 0 <= i < |ops| ==> Steps(rows[i], ops[i], rows[i + 1])
  }

  /** Operations that write the map and live to re-arm. */
  predicate Rewrites(r: Row, op: Op) {
    (op.Setting? && op.fault.NoFault?) || (op.Clearing? && op.key in r.intents)
  }

  /** Operations that may leave an armed map unarmed: a firing, a set that failed on the alarm, a repair of nothing. */
  predicate Disarms(r: Row, op: Op) {
    || op.Firing?
    || (op.Setting? && op.fault.BeforeAlarm? && !(r.alarm.Some? && r.alarm.value <= op.intent.notBefore))
    || (op.Repairing? && r.intents == map[])
  }

  /** Any operation keeps an armed map armed exactly when it is not one of those, or when nothing was pending to be missed. */
  lemma ArmedExactlyUntil(r: Row, op: Op, t: Row)
    requires Steps(r, op, t) && Armed(r.intents, r.alarm)
    ensures Armed(t.intents, t.alarm) <==> !Disarms(r, op) || (op.Firing? && r.intents == map[])
  {
    if op.Setting? && op.fault.BeforeAlarm? {
      assert op.intent.key in t.intents;
    }
    if op.Clearing? && op.key !in r.intents {
      assert r.intents - {op.key} == r.intents;
    }
    if op.Firing? && r.intents != map[] {
      assert t.alarm.None?;
    }
  }

  /**
   * Through whatever came before it: as soon as a write lives to re-arm, the map is
   * armed, and it stays armed until an operation that disarms.
   */
  lemma {:induction false} NoLostWakeUp(rows: seq<Row>, ops: seq<Op>, i: nat, k: nat)
    requires Runs(rows, ops) && i < k <= |ops|
    requires Rewrites(rows[i], ops[i])
    requires forall m :: i < m < k ==> !Disarms(rows[m], ops[m])
    ensures Armed(rows[k].intents, rows[k].alarm)
    decreases k
  {
    if k == i + 1 {
      assert Steps(rows[i], ops[i], rows[i + 1]);
    } else {
      NoLostWakeUp(rows, ops, i, k - 1);
      assert Steps(rows[k - 1], ops[k - 1], rows[k]);
      ArmedExactlyUntil(rows[k - 1], ops[k - 1], rows[k]);
    }
  }

  /** A clear arms exactly when it held the key, or when nothing needed arming. */
  lemma ClearArmsExactlyWhen(r: Row, key: string, t: Row)
    requires Steps(r, Clearing(key), t)
    ensures Armed(t.intents, t.alarm) <==> key in r.intents || Armed(r.intents, r.alarm)
  {
    if key !in r.intents {
      assert r.intents - {key} == r.intents;
    }
  }

  /** After a firing, clearing a key nobody holds leaves a pending deadline without an alarm. */
  lemma ClearingNothingArmsNothing(intent: Intent, key: string, t: Row)
    requires key != intent.key
    requires Steps(Row(map[intent.key := intent], None), Clearing(key), t)
    ensures !Armed(t.intents, t.alarm)
  {
    assert intent.key in t.intents;
  }
}
