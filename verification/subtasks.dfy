/**
 * The `subtasks` table: the durable units of work a Task is split into.
 *
 * Every status change is an update guarded on the current status, so a change
 * that is not allowed matches no row. The clock is a parameter.
 */
module Subtasks {
  import opened Wrappers
  import Text

  datatype Role = UserRole | AssistantRole

  /** A verbatim snapshot of one conversation message. */
  datatype Reference = Reference(role: Role, text: string)

  datatype Draft = Draft(kind: string, prompt: string, references: seq<Reference>, params: map<string, string>)

  datatype Status = Pending | Running | Completed | Failed | Canceled

  datatype Recipe = Recipe(id: string, version: int)

  datatype Row = Row(
    taskId: string, round: nat, ordinal: nat, draft: Draft, recipe: Option<Recipe>, status: Status,
    results: Option<seq<string>>, error: Option<string>,
    createdAt: int, updatedAt: int, completedAt: Option<int>)

  /** `nextId` is the autoincrement counter: it only grows, so an id is never reused. */
  datatype Table = Table(rows: map<nat, Row>, nextId: nat)

  predicate Terminal(s: Status) {
    s.Completed? || s.Failed? || s.Canceled?
  }

  function TaskIds(t: Table, taskId: string): set<nat> {
    set id | id in t.rows && t.rows[id].taskId == taskId
  }

  function RoundIds(t: Table, taskId: string, round: nat): set<nat> {
    set id | id in t.rows && t.rows[id].taskId == taskId && t.rows[id].round == round
  }

  // ---- the guarded writes as functions of the table -----------------------------

  /** One above the highest ordinal among the Task's rows with an id below `k`; zero when there is none. */
  function Ceiling(t: Table, taskId: string, k: nat): nat {
    if k == 0 then 0
    else
      var rest := Ceiling(t, taskId, k - 1);
      if k - 1 in t.rows && t.rows[k - 1].taskId == taskId && t.rows[k - 1].ordinal >= rest
      then t.rows[k - 1].ordinal + 1
      else rest
  }

  function NewRow(taskId: string, round: nat, ordinal: nat, draft: Draft, now: int): Row {
    Row(taskId, round, ordinal, draft, None, Pending, None, None, now, now, None)
  }

  /** The table after inserting one pending row per draft, in order, from ordinal `first` on. */
  function InsertAll(t: Table, taskId: string, round: nat, first: nat, drafts: seq<Draft>, now: int): (u: Table)
    ensures u.nextId == t.nextId + |drafts|
  {
    if drafts == [] then t
    else
      var last := |drafts| - 1;
      var u := InsertAll(t, taskId, round, first, drafts[..last], now);
      Table(u.rows[u.nextId := NewRow(taskId, round, first + last, drafts[last], now)], u.nextId + 1)
  }

  /** The table with one pending row per draft, in draft order, above every row of the Task. */
  function Inserted(t: Table, taskId: string, round: nat, drafts: seq<Draft>, now: int): Table {
    InsertAll(t, taskId, round, Ceiling(t, taskId, t.nextId), drafts, now)
  }

  predicate CreateAccepts(t: Table, taskId: string, round: nat, drafts: seq<Draft>, max: nat) {
    RoundIds(t, taskId, round) != {} || 1 <= |drafts| <= max
  }

  /** Idempotent on `(taskId, round)`; a refused size leaves the table alone. */
  function Create(t: Table, taskId: string, round: nat, drafts: seq<Draft>, max: nat, now: int): Table {
    if RoundIds(t, taskId, round) == {} && 1 <= |drafts| <= max
    then Inserted(t, taskId, round, drafts, now)
    else t
  }

  predicate Guarded(t: Table, id: nat, from: set<Status>) {
    id in t.rows && t.rows[id].status in from
  }

  function Start(t: Table, id: nat, recipe: Recipe, now: int): Table {
    if Guarded(t, id, {Pending})
    then t.(rows := t.rows[id := t.rows[id].(status := Running, recipe := Some(recipe), updatedAt := now)])
    else t
  }

  /** A completed result needs at least one part with text in it. */
  predicate Usable(parts: seq<string>) {
    exists i :: 0 <= i < |parts| && !Text.Blank(parts[i])
  }

  function Complete(t: Table, id: nat, parts: seq<string>, now: int): Table {
    if Usable(parts) && Guarded(t, id, {Running})
    then t.(rows := t.rows[id := t.rows[id].(status := Completed, results := Some(parts), updatedAt := now, completedAt := Some(now))])
    else t
  }

  function Fail(t: Table, id: nat, error: string, now: int): Table {
    if Guarded(t, id, {Running, Pending})
    then t.(rows := t.rows[id := t.rows[id].(status := Failed, error := Some(error), updatedAt := now, completedAt := Some(now))])
    else t
  }

  function CancelRunning(t: Table, id: nat, now: int): Table {
    if Guarded(t, id, {Running})
    then t.(rows := t.rows[id := t.rows[id].(status := Canceled, updatedAt := now, completedAt := Some(now))])
    else t
  }

  function CanceledIfPending(r: Row, taskId: string, now: int): Row {
    if r.taskId == taskId && r.status == Pending
    then r.(status := Canceled, updatedAt := now, completedAt := Some(now))
    else r
  }

  function CancelPending(t: Table, taskId: string, now: int): Table {
    t.(rows := map id | id in t.rows :: CanceledIfPending(t.rows[id], taskId, now))
  }

  const RETENTION_MS := 30 * 24 * 60 * 60 * 1000

  function Cleanup(t: Table, now: int): Table {
    t.(rows := map id | id in t.rows && t.rows[id].createdAt >= now - RETENTION_MS :: t.rows[id])
  }

  // ---- the invariant ---------------------------------------------------------------

  /** What one row's columns say about each other. */
  predicate RowOk(r: Row) {
    && (r.completedAt.Some? <==> Terminal(r.status))
    && (r.results.Some? <==> r.status == Completed)
    && (r.results.Some? ==> Usable(r.results.value))
    && (r.error.Some? <==> r.status == Failed)
  }

  /** Later ids of a Task have higher ordinals, so ordinals are unique and id order is list order. */
  ghost predicate Ordered(t: Table) {
    forall i, j :: i in t.rows && j in t.rows && i < j && t.rows[i].taskId == t.rows[j].taskId
      ==> t.rows[i].ordinal < t.rows[j].ordinal
  }

  /** A round is written by one insert, so its rows share their creation instant and leave together. */
  ghost predicate RoundsWhole(t: Table, max: nat) {
    && (forall i, j :: i in t.rows && j in t.rows && t.rows[i].taskId == t.rows[j].taskId && t.rows[i].round == t.rows[j].round
         ==> t.rows[i].createdAt == t.rows[j].createdAt)
    && (forall i :: i in t.rows ==> |RoundIds(t, t.rows[i].taskId, t.rows[i].round)| <= max)
  }

  ghost predicate Valid(t: Table, max: nat) {
    && (forall id :: id in t.rows ==> id < t.nextId && RowOk(t.rows[id]))
    && Ordered(t)
    && RoundsWhole(t, max)
  }

  datatype Op =
    | Creating(taskId: string, round: nat, drafts: seq<Draft>, now: int)
    | Starting(id: nat, recipe: Recipe, now: int)
    | Completing(id: nat, parts: seq<string>, now: int)
    | Failing(id: nat, error: string, now: int)
    | CancelingRunning(id: nat, now: int)
    | CancelingPending(taskId: string, now: int)
    | Cleaning(now: int)

  function Apply(t: Table, op: Op, max: nat): Table {
    match op
    case Creating(taskId, round, drafts, now) => Create(t, taskId, round, drafts, max, now)
    case Starting(id, recipe, now) => Start(t, id, recipe, now)
    case Completing(id, parts, now) => Complete(t, id, parts, now)
    case Failing(id, error, now) => Fail(t, id, error, now)
    case CancelingRunning(id, now) => CancelRunning(t, id, now)
    case CancelingPending(taskId, now) => CancelPending(t, taskId, now)
    case Cleaning(now) => Cleanup(t, now)
  }

  function ApplyAll(t: Table, ops: seq<Op>, max: nat): Table
    decreases ops
  {
    if ops == [] then t else ApplyAll(Apply(t, ops[0], max), ops[1..], max)
  }

  /** No later state contradicts what a table already settled. */
  ghost predicate Settles(t: Table, u: Table) {
    && t.nextId <= u.nextId
    && (forall id :: id in t.rows && Terminal(t.rows[id].status) && id in u.rows ==> u.rows[id] == t.rows[id])
    && (forall id :: id in u.rows && id < t.nextId ==> id in t.rows && SameWork(t.rows[id], u.rows[id]))
  }

  /** The columns no operation rewrites. */
  predicate SameWork(r: Row, s: Row) {
    && r.taskId == s.taskId && r.round == s.round && r.ordinal == s.ordinal
    && r.draft == s.draft && r.createdAt == s.createdAt
  }

  // ---- proofs ------------------------------------------------------------------------

  lemma CeilingAbove(t: Table, taskId: string, k: nat)
    ensures forall id :: id in t.rows && id < k && t.rows[id].taskId == taskId ==> t.rows[id].ordinal < Ceiling(t, taskId, k)
  {}

  /** The ceiling is tight: some row of the Task reaches it. */
  lemma CeilingReached(t: Table, taskId: string, k: nat)
    ensures Ceiling(t, taskId, k) > 0 ==>
      exists id :: id in t.rows && id < k && t.rows[id].taskId == taskId && t.rows[id].ordinal + 1 == Ceiling(t, taskId, k)
  {
    if Ceiling(t, taskId, k) > 0 {
      if k - 1 in t.rows && t.rows[k - 1].taskId == taskId && t.rows[k - 1].ordinal >= Ceiling(t, taskId, k - 1) {
        assert t.rows[k - 1].ordinal + 1 == Ceiling(t, taskId, k);
      } else {
        CeilingReached(t, taskId, k - 1);
      }
    }
  }

  function Interval(lo: nat, n: nat): (s: set<nat>)
    ensures forall k: nat :: k in s <==> lo <= k < lo + n
    ensures |s| == n
  {
    if n == 0 then {} else Interval(lo, n - 1) + {lo + n - 1}
  }

  lemma SubsetSize<T>(a: set<T>, b: set<T>)
    requires a <= b
    ensures |a| <= |b|
  {
    assert a + (b - a) == b;
  }

  /** Every row of the table after an insert: an old one unchanged, or a new one with its own place. */
  lemma {:induction false} InsertedRows(t: Table, taskId: string, round: nat, first: nat, drafts: seq<Draft>, now: int)
    requires forall id :: id in t.rows ==> id < t.nextId
    ensures
      var u := InsertAll(t, taskId, round, first, drafts, now);
      && (forall id :: id in u.rows <==> id in t.rows || t.nextId <= id < t.nextId + |drafts|)
      && (forall id :: id in t.rows ==> u.rows[id] == t.rows[id])
      && (forall id :: id in u.rows && id !in t.rows ==> InsertedAs(u, id, taskId, round, first + (id - t.nextId), now))
  {
    if drafts != [] {
      InsertedRows(t, taskId, round, first, drafts[..|drafts| - 1], now);
    }
  }

  /** A row as an insert leaves it. */
  ghost predicate InsertedAs(u: Table, id: nat, taskId: string, round: nat, ordinal: int, now: int)
    requires id in u.rows
  {
    var r := u.rows[id];
    && r.taskId == taskId && r.round == round && r.ordinal == ordinal && r.createdAt == now
    && r.status == Pending && r.recipe == None && r.results == None && r.error == None && r.completedAt == None
  }

  lemma {:induction false} InsertedDraft(t: Table, taskId: string, round: nat, first: nat, drafts: seq<Draft>, now: int, k: nat)
    requires k < |drafts|
    ensures
      var u := InsertAll(t, taskId, round, first, drafts, now);
      t.nextId + k in u.rows && u.rows[t.nextId + k].draft == drafts[k]
  {
    if k < |drafts| - 1 {
      InsertedDraft(t, taskId, round, first, drafts[..|drafts| - 1], now, k);
    }
  }

  /** A new round's rows: exactly one pending row per draft, in draft order. */
  lemma CreatedRowsAreTheDrafts(t: Table, taskId: string, round: nat, drafts: seq<Draft>, max: nat, now: int)
    requires forall id :: id in t.rows ==> id < t.nextId
    requires RoundIds(t, taskId, round) == {} && 1 <= |drafts| <= max
    ensures
      var u := Create(t, taskId, round, drafts, max, now);
      && |RoundIds(u, taskId, round)| == |drafts|
      && (forall id :: id in RoundIds(u, taskId, round) <==> t.nextId <= id < t.nextId + |drafts|)
      && (forall id :: id in RoundIds(u, taskId, round) ==> u.rows[id].draft == drafts[id - t.nextId] && u.rows[id].status == Pending)
  {
    hide InsertAll, Ceiling, Interval;
    InsertedRows(t, taskId, round, Ceiling(t, taskId, t.nextId), drafts, now);
    CreatedIds(t, taskId, round, drafts, now);
    forall id | t.nextId <= id < t.nextId + |drafts|
      ensures
        var u := Create(t, taskId, round, drafts, max, now);
        id in u.rows && u.rows[id].draft == drafts[id - t.nextId]
    {
      InsertedDraft(t, taskId, round, Ceiling(t, taskId, t.nextId), drafts, now, id - t.nextId);
    }
  }

  /**
   * Each new row's ordinal is above that of every row that survives of the Task,
   * however much the cleanup has deleted, and no surviving row changes.
   */
  lemma CreatedRowsGoOnTop(t: Table, taskId: string, round: nat, drafts: seq<Draft>, max: nat, now: int, survivor: nat, created: nat)
    requires forall id :: id in t.rows ==> id < t.nextId
    requires RoundIds(t, taskId, round) == {} && 1 <= |drafts| <= max
    requires survivor in TaskIds(t, taskId)
    requires created in RoundIds(Create(t, taskId, round, drafts, max, now), taskId, round)
    ensures
      var u := Create(t, taskId, round, drafts, max, now);
      survivor in u.rows && u.rows[survivor] == t.rows[survivor] && u.rows[survivor].ordinal < u.rows[created].ordinal
  {
    hide InsertAll, Ceiling, Interval;
    InsertedRows(t, taskId, round, Ceiling(t, taskId, t.nextId), drafts, now);
    CeilingAbove(t, taskId, t.nextId);
    CreatedIds(t, taskId, round, drafts, now);
  }

  lemma CreatedIds(t: Table, taskId: string, round: nat, drafts: seq<Draft>, now: int)
    requires forall id :: id in t.rows ==> id < t.nextId
    requires RoundIds(t, taskId, round) == {}
    ensures RoundIds(Inserted(t, taskId, round, drafts, now), taskId, round) == Interval(t.nextId, |drafts|)
  {
    hide InsertAll, Ceiling, Interval;
    var u := Inserted(t, taskId, round, drafts, now);
    InsertedRows(t, taskId, round, Ceiling(t, taskId, t.nextId), drafts, now);
    forall id
      ensures id in RoundIds(u, taskId, round) <==> t.nextId <= id < t.nextId + |drafts|
    {
      assert id !in RoundIds(t, taskId, round);
      if id in u.rows && id !in t.rows {
        assert InsertedAs(u, id, taskId, round, Ceiling(t, taskId, t.nextId) + (id - t.nextId), now);
      }
    }
  }

  lemma CreateKeepsOrder(t: Table, taskId: string, round: nat, drafts: seq<Draft>, now: int)
    requires forall id :: id in t.rows ==> id < t.nextId
    requires Ordered(t)
    ensures Ordered(Inserted(t, taskId, round, drafts, now))
  {
    InsertedRows(t, taskId, round, Ceiling(t, taskId, t.nextId), drafts, now);
    CeilingAbove(t, taskId, t.nextId);
    var u := Inserted(t, taskId, round, drafts, now);
    forall i, j | i in u.rows && j in u.rows && i < j && u.rows[i].taskId == u.rows[j].taskId
      ensures u.rows[i].ordinal < u.rows[j].ordinal
    {
      if i in t.rows && j in t.rows {
        assert t.rows[i].ordinal < t.rows[j].ordinal;
      }
    }
  }

  lemma CreateKeepsRounds(t: Table, taskId: string, round: nat, drafts: seq<Draft>, max: nat, now: int)
    requires forall id :: id in t.rows ==> id < t.nextId
    requires RoundsWhole(t, max)
    requires RoundIds(t, taskId, round) == {} && 1 <= |drafts| <= max
    ensures RoundsWhole(Inserted(t, taskId, round, drafts, now), max)
  {
    hide InsertAll, Ceiling;
    InsertedRows(t, taskId, round, Ceiling(t, taskId, t.nextId), drafts, now);
    CreatedRowsAreTheDrafts(t, taskId, round, drafts, max, now);
    var u := Inserted(t, taskId, round, drafts, now);
    forall i | i in u.rows
      ensures |RoundIds(u, u.rows[i].taskId, u.rows[i].round)| <= max
      ensures forall j :: j in RoundIds(u, u.rows[i].taskId, u.rows[i].round) ==> u.rows[i].createdAt == u.rows[j].createdAt
    {
      if i in t.rows {
        OtherRoundsUntouched(t, taskId, round, drafts, now, t.rows[i].taskId, t.rows[i].round);
        assert i in RoundIds(t, t.rows[i].taskId, t.rows[i].round);
      }
    }
    forall i, j | i in u.rows && j in u.rows && u.rows[i].taskId == u.rows[j].taskId && u.rows[i].round == u.rows[j].round
      ensures u.rows[i].createdAt == u.rows[j].createdAt
    {
      assert j in RoundIds(u, u.rows[i].taskId, u.rows[i].round);
    }
  }

  lemma OtherRoundsUntouched(t: Table, taskId: string, round: nat, drafts: seq<Draft>, now: int, otherTask: string, otherRound: nat)
    requires forall id :: id in t.rows ==> id < t.nextId
    requires otherTask != taskId || otherRound != round
    ensures RoundIds(Inserted(t, taskId, round, drafts, now), otherTask, otherRound) == RoundIds(t, otherTask, otherRound)
  {
    InsertedRows(t, taskId, round, Ceiling(t, taskId, t.nextId), drafts, now);
  }

  lemma CreateKeepsRows(t: Table, taskId: string, round: nat, drafts: seq<Draft>, now: int)
    requires forall id :: id in t.rows ==> id < t.nextId && RowOk(t.rows[id])
    ensures
      var u := Inserted(t, taskId, round, drafts, now);
      && Settles(t, u) && forall id :: id in u.rows ==> id < u.nextId && RowOk(u.rows[id])
  {
    hide InsertAll, Ceiling;
    InsertedRows(t, taskId, round, Ceiling(t, taskId, t.nextId), drafts, now);
  }

  lemma CreateKeepsValid(t: Table, taskId: string, round: nat, drafts: seq<Draft>, max: nat, now: int)
    requires Valid(t, max)
    ensures Valid(Create(t, taskId, round, drafts, max, now), max) && Settles(t, Create(t, taskId, round, drafts, max, now))
  {
    hide Ordered, RoundsWhole, RowOk, RoundIds, Inserted;
    if RoundIds(t, taskId, round) == {} && 1 <= |drafts| <= max {
      CreateKeepsRows(t, taskId, round, drafts, now);
      CreateKeepsOrder(t, taskId, round, drafts, now);
      CreateKeepsRounds(t, taskId, round, drafts, max, now);
    }
  }

  /** An update in place or a deletion that keeps each surviving row's own columns sound. */
  ghost predicate Narrows(t: Table, u: Table) {
    && u.nextId == t.nextId
    && u.rows.Keys <= t.rows.Keys
    && (forall id :: id in u.rows ==> SameWork(t.rows[id], u.rows[id]) && RowOk(u.rows[id]))
    && (forall id :: id in u.rows && Terminal(t.rows[id].status) ==> u.rows[id] == t.rows[id])
  }

  lemma NarrowingKeepsValid(t: Table, u: Table, max: nat)
    requires Valid(t, max)
    requires Narrows(t, u)
    ensures Valid(u, max) && Settles(t, u)
  {
    forall i | i in u.rows
      ensures |RoundIds(u, u.rows[i].taskId, u.rows[i].round)| <= max
    {
      var before := RoundIds(t, u.rows[i].taskId, u.rows[i].round);
      assert RoundIds(u, u.rows[i].taskId, u.rows[i].round) <= before;
      SubsetSize(RoundIds(u, u.rows[i].taskId, u.rows[i].round), before);
    }
  }

  lemma RowWritesNarrow(t: Table, op: Op, max: nat)
    requires forall id :: id in t.rows ==> RowOk(t.rows[id])
    requires !op.Creating?
    ensures Narrows(t, Apply(t, op, max))
  {
    var u := Apply(t, op, max);
    forall id | id in u.rows
      ensures id in t.rows && SameWork(t.rows[id], u.rows[id]) && RowOk(u.rows[id])
      ensures Terminal(t.rows[id].status) ==> u.rows[id] == t.rows[id]
    {
      assert RowOk(t.rows[id]);
    }
  }

  lemma ApplyKeepsValid(t: Table, op: Op, max: nat)
    requires Valid(t, max)
    ensures Valid(Apply(t, op, max), max) && Settles(t, Apply(t, op, max))
  {
    hide Ordered, RoundsWhole, RowOk, Settles, Narrows, Create;
    if op.Creating? {
      CreateKeepsValid(t, op.taskId, op.round, op.drafts, max, op.now);
    } else {
      RowWritesNarrow(t, op, max);
      NarrowingKeepsValid(t, Apply(t, op, max), max);
    }
  }

  lemma SettlesOn(t: Table, u: Table, v: Table)
    requires Settles(t, u) && Settles(u, v) && forall id :: id in t.rows ==> id < t.nextId
    ensures Settles(t, v)
  {}

  lemma BelowNext(t: Table, max: nat)
    requires Valid(t, max)
    ensures forall id :: id in t.rows ==> id < t.nextId
  {}

  lemma {:induction false} TableInvariant(t: Table, ops: seq<Op>, max: nat)
    requires Valid(t, max)
    ensures Valid(ApplyAll(t, ops, max), max) && Settles(t, ApplyAll(t, ops, max))
    decreases ops
  {
    if ops != [] {
      BelowNext(t, max);
      hide Valid, Apply, Settles;
      ApplyKeepsValid(t, ops[0], max);
      TableInvariant(Apply(t, ops[0], max), ops[1..], max);
      SettlesOn(t, Apply(t, ops[0], max), ApplyAll(t, ops, max));
    } else {
      assert Settles(t, t);
    }
  }

  // ---- where a row's columns come from ------------------------------------------

  /** The operation that left the row as it is stands among these. */
  ghost predicate EndedBy(r: Row, id: nat, op: Op) {
    match r.status
    case Pending => false
    case Running => op.Starting? && op.id == id && r.updatedAt == op.now
    case Completed => op.Completing? && op.id == id && r.results == Some(op.parts) && r.completedAt == Some(op.now)
    case Failed => op.Failing? && op.id == id && r.error == Some(op.error) && r.completedAt == Some(op.now)
    case Canceled =>
      && ((op.CancelingRunning? && op.id == id) || (op.CancelingPending? && op.taskId == r.taskId))
      && r.completedAt == Some(op.now)
  }

  /** The row was claimed with this recipe. */
  ghost predicate ClaimedBy(r: Row, id: nat, op: Op) {
    op.Starting? && op.id == id && r.recipe == Some(op.recipe)
  }

  /** The row was one of this decomposition's. */
  ghost predicate CreatedBy(r: Row, op: Op) {
    && op.Creating? && op.taskId == r.taskId && op.round == r.round && op.now == r.createdAt
    && r.draft in op.drafts
  }

  /** All that is in a row was given to some operation. */
  ghost predicate Explained(r: Row, id: nat, ops: seq<Op>) {
    && (exists i :: 0 <= i < |ops| && CreatedBy(r, ops[i]))
    && (!r.status.Pending? ==> exists i :: 0 <= i < |ops| && EndedBy(r, id, ops[i]))
    && (r.recipe.Some? ==> exists i :: 0 <= i < |ops| && ClaimedBy(r, id, ops[i]))
    && (r.status.Completed? || r.status.Running? ==> r.recipe.Some?)
  }

  lemma ExplainedStays(r: Row, id: nat, ops: seq<Op>, op: Op)
    requires Explained(r, id, ops)
    ensures Explained(r, id, ops + [op])
  {
    hide EndedBy, ClaimedBy, CreatedBy;
    var more := ops + [op];
    assert forall i :: 0 <= i < |ops| ==> more[i] == ops[i];
    if !r.status.Pending? {
      var i :| 0 <= i < |ops| && EndedBy(r, id, ops[i]);
      assert EndedBy(r, id, more[i]);
    }
    if r.recipe.Some? {
      var i :| 0 <= i < |ops| && ClaimedBy(r, id, ops[i]);
      assert ClaimedBy(r, id, more[i]);
    }
    var i :| 0 <= i < |ops| && CreatedBy(r, ops[i]);
    assert CreatedBy(r, more[i]);
  }

  /** A row that an operation changed: it was there, keeps its work, and is explained by the operation. */
  lemma ChangedIsExplained(before: Row, after: Row, id: nat, ops: seq<Op>, op: Op)
    requires Explained(before, id, ops) && SameWork(before, after)
    requires EndedBy(after, id, op)
    requires after.recipe == before.recipe || ClaimedBy(after, id, op)
    requires after.status.Completed? || after.status.Running? ==> after.recipe.Some?
    ensures Explained(after, id, ops + [op])
  {
    hide EndedBy;
    var more := ops + [op];
    assert forall i :: 0 <= i < |ops| ==> more[i] == ops[i];
    assert more[|ops|] == op;
    var i :| 0 <= i < |ops| && CreatedBy(before, ops[i]);
    assert CreatedBy(after, more[i]);
    if after.recipe.Some? && after.recipe == before.recipe {
      var k :| 0 <= k < |ops| && ClaimedBy(before, id, ops[k]);
      assert ClaimedBy(after, id, more[k]);
    }
  }

  /** Every row from the id `base` on is explained. */
  ghost predicate AllExplained(t: Table, base: nat, ops: seq<Op>) {
    && base <= t.nextId
    && (forall id :: id in t.rows ==> id < t.nextId)
    && forall id :: id in t.rows && id >= base ==> Explained(t.rows[id], id, ops)
  }

  /** What an operation that creates nothing may do to one row. */
  lemma WriteOnARow(t: Table, op: Op, max: nat, id: nat)
    requires !op.Creating? && id in Apply(t, op, max).rows
    ensures Apply(t, op, max).nextId == t.nextId
    ensures id in t.rows && SameWork(t.rows[id], Apply(t, op, max).rows[id])
    ensures
      var before, after := t.rows[id], Apply(t, op, max).rows[id];
      after != before ==>
        && EndedBy(after, id, op)
        && (after.recipe == before.recipe || ClaimedBy(after, id, op))
        && (after.status.Running? ==> after.recipe.Some?)
        && (after.status.Completed? ==> before.status.Running?)
  {}

  lemma CreatedIsExplained(t: Table, base: nat, op: Op, max: nat, ops: seq<Op>, id: nat)
    requires AllExplained(t, base, ops) && op.Creating? && id in Apply(t, op, max).rows
    ensures id < Apply(t, op, max).nextId && t.nextId <= Apply(t, op, max).nextId
    ensures id >= base ==> Explained(Apply(t, op, max).rows[id], id, ops + [op])
  {
    hide InsertAll, Ceiling, Explained;
    if id in t.rows {
      InsertedRows(t, op.taskId, op.round, Ceiling(t, op.taskId, t.nextId), op.drafts, op.now);
      if id >= base {
        ExplainedStays(t.rows[id], id, ops, op);
      }
    } else {
      var first := Ceiling(t, op.taskId, t.nextId);
      InsertedRows(t, op.taskId, op.round, first, op.drafts, op.now);
      InsertedDraft(t, op.taskId, op.round, first, op.drafts, op.now, id - t.nextId);
      NewIsExplained(Apply(t, op, max).rows[id], id, ops, op);
    }
  }

  lemma NewIsExplained(r: Row, id: nat, ops: seq<Op>, op: Op)
    requires CreatedBy(r, op) && r.status.Pending? && r.recipe.None?
    ensures Explained(r, id, ops + [op])
  {
    assert (ops + [op])[|ops|] == op;
  }

  lemma StepKeepsExplained(t: Table, base: nat, op: Op, max: nat, ops: seq<Op>)
    requires AllExplained(t, base, ops)
    ensures AllExplained(Apply(t, op, max), base, ops + [op])
  {
    var u := Apply(t, op, max);
    IdsGoOn(t, op, max);
    forall id | id in u.rows
      ensures id < u.nextId && (id >= base ==> Explained(u.rows[id], id, ops + [op]))
    {
      hide Apply, EndedBy, ClaimedBy;
      if op.Creating? {
        CreatedIsExplained(t, base, op, max, ops, id);
      } else {
        WriteOnARow(t, op, max, id);
        if id >= base {
          assert Explained(t.rows[id], id, ops);
          if u.rows[id] == t.rows[id] {
            ExplainedStays(t.rows[id], id, ops, op);
          } else {
            ChangedIsExplained(t.rows[id], u.rows[id], id, ops, op);
          }
        }
      }
    }
  }

  lemma IdsGoOn(t: Table, op: Op, max: nat)
    ensures t.nextId <= Apply(t, op, max).nextId
  {}

  lemma {:induction false} OpsExplain(t: Table, base: nat, done: seq<Op>, ops: seq<Op>, max: nat)
    requires AllExplained(t, base, done)
    ensures AllExplained(ApplyAll(t, ops, max), base, done + ops)
    decreases ops
  {
    hide Apply, AllExplained;
    if ops == [] {
      assert done + ops == done;
    } else {
      StepKeepsExplained(t, base, ops[0], max, done);
      OpsExplain(Apply(t, ops[0], max), base, done + [ops[0]], ops[1..], max);
      assert done + [ops[0]] + ops[1..] == done + ops;
    }
  }

  /**
   * Over every operation sequence, whatever a row that was not there before says, it
   * was given: its draft, round and instant by a decomposition, its recipe by the
   * claim, its results, error or cancellation, with their instant, by the operation
   * that ended it.
   */
  lemma RowsAreExplained(t: Table, ops: seq<Op>, max: nat, id: nat)
    requires (forall k :: k in t.rows ==> k < t.nextId)
    requires id in ApplyAll(t, ops, max).rows && id >= t.nextId
    ensures Explained(ApplyAll(t, ops, max).rows[id], id, ops)
  {
    assert AllExplained(t, t.nextId, []);
    hide ApplyAll;
    OpsExplain(t, t.nextId, [], ops, max);
    assert [] + ops == ops;
  }

  lemma {:induction false} OldRowsStayInserted(t: Table, taskId: string, round: nat, first: nat, drafts: seq<Draft>, now: int, id: nat)
    requires id in t.rows && id < t.nextId
    ensures id in InsertAll(t, taskId, round, first, drafts, now).rows
    ensures InsertAll(t, taskId, round, first, drafts, now).rows[id] == t.rows[id]
  {
    if drafts != [] {
      OldRowsStayInserted(t, taskId, round, first, drafts[..|drafts| - 1], now, id);
    }
  }

  /**
   * And an operation does to a row what it is for, if the row is where it needs it;
   * only the cleanup takes a row away, and only an old one.
   */
  lemma OperationsTakeEffect(t: Table, op: Op, max: nat, id: nat)
    requires id in t.rows && id < t.nextId
    ensures id in Apply(t, op, max).rows <==> !(op.Cleaning? && t.rows[id].createdAt < op.now - 2592000000)
    ensures id in Apply(t, op, max).rows ==>
      var before, after := t.rows[id], Apply(t, op, max).rows[id];
      match op
      case Creating(_, _, _, _) => after == before
      case Starting(k, _, _) => if k == id && before.status.Pending? then after.status.Running? else after == before
      case Completing(k, parts, _) =>
        if k == id && before.status.Running? && (exists i :: 0 <= i < |parts| && !Text.Blank(parts[i]))
        then after.status.Completed? else after == before
      case Failing(k, _, _) => if k == id && !Terminal(before.status) then after.status.Failed? else after == before
      case CancelingRunning(k, _) => if k == id && before.status.Running? then after.status.Canceled? else after == before
      case CancelingPending(taskId, _) =>
        if taskId == before.taskId && before.status.Pending? then after.status.Canceled? else after == before
      case Cleaning(_) => after == before
  {
    if op.Creating? {
      OldRowsStayInserted(t, op.taskId, op.round, Ceiling(t, op.taskId, t.nextId), op.drafts, op.now, id);
    }
  }

  /** Ids in the order their rows' ordinals give. */
  ghost predicate InListOrder(t: Table, ids: seq<nat>) {
    && (forall i :: 0 <= i < |ids| ==> ids[i] in t.rows)
    && (forall i, j :: 0 <= i < j < |ids| ==> t.rows[ids[i]].ordinal < t.rows[ids[j]].ordinal)
  }

  lemma AscendingIsListOrder(t: Table, max: nat, taskId: string, round: nat, ids: seq<nat>)
    requires Valid(t, max)
    requires forall i :: 0 <= i < |ids| ==> ids[i] in RoundIds(t, taskId, round)
    requires forall i, j :: 0 <= i < j < |ids| ==> ids[i] < ids[j]
    ensures InListOrder(t, ids)
  {}

  // ---- the table as the source keeps it ------------------------------------------------

  class SubtaskTable {
    var rows: map<nat, Row>
    var nextId: nat
    const maxSubtasks: nat

    constructor (maxSubtasks: nat)
      ensures View() == Table(map[], 0) && this.maxSubtasks == maxSubtasks
      ensures Valid(View(), maxSubtasks)
    {
      rows := map[];
      nextId := 0;
      this.maxSubtasks := maxSubtasks;
    }

    function View(): Table
      reads this
    {
      Table(rows, nextId)
    }

    /** A round's row ids in ordinal order, which the invariant makes id order. */
    method ListRound(taskId: string, round: nat) returns (ids: seq<nat>)
      requires Valid(View(), maxSubtasks)
      ensures forall id :: id in ids <==> id in RoundIds(View(), taskId, round)
      ensures forall i, j :: 0 <= i < j < |ids| ==> ids[i] < ids[j]
      ensures InListOrder(View(), ids)
    {
      ids := [];
      for id := 0 to nextId
        invariant forall k :: k in ids <==> k < id && k in RoundIds(View(), taskId, round)
        invariant forall i, j :: 0 <= i < j < |ids| ==> ids[i] < ids[j]
      {
        if id in rows && rows[id].taskId == taskId && rows[id].round == round {
          forall i | 0 <= i < |ids| ensures ids[i] < id {
            assert ids[i] in ids;
          }
          ids := ids + [id];
        }
      }
      AscendingIsListOrder(View(), maxSubtasks, taskId, round, ids);
    }

    /** One transaction: the check and every insert, or nothing. */
    method CreateDecomposition(taskId: string, round: nat, drafts: seq<Draft>, now: int)
      returns (r: Result<seq<nat>, string>)
      requires Valid(View(), maxSubtasks)
      modifies this
      ensures Valid(View(), maxSubtasks)
      ensures View() == Create(old(View()), taskId, round, drafts, maxSubtasks, now)
      ensures r.Success? <==> CreateAccepts(old(View()), taskId, round, drafts, maxSubtasks)
      ensures r.Success? ==> forall id :: id in r.value <==> id in RoundIds(View(), taskId, round)
      ensures r.Success? ==> forall i, j :: 0 <= i < j < |r.value| ==> r.value[i] < r.value[j]
    {
      hide Ordered, RoundsWhole, RowOk, Settles;
      var existing := ListRound(taskId, round);
      if |existing| > 0 {
        assert existing[0] in existing;
        return Success(existing);
      }
      assert RoundIds(View(), taskId, round) == {};
      if |drafts| < 1 || |drafts| > maxSubtasks {
        return Failure("decomposition size");
      }
      ghost var before := View();
      var first := 0;
      for id := 0 to nextId
        invariant first == Ceiling(before, taskId, id)
      {
        if id in rows && rows[id].taskId == taskId && rows[id].ordinal >= first {
          first := rows[id].ordinal + 1;
        }
      }
      for offset := 0 to |drafts|
        invariant View() == InsertAll(before, taskId, round, first, drafts[..offset], now)
      {
        rows := rows[nextId := NewRow(taskId, round, first + offset, drafts[offset], now)];
        nextId := nextId + 1;
        assert drafts[..offset + 1][..offset] == drafts[..offset];
      }
      assert drafts[..|drafts|] == drafts;
      CreateKeepsValid(before, taskId, round, drafts, maxSubtasks, now);
      var created := ListRound(taskId, round);
      r := Success(created);
    }

    /** Claim a row. Winning it is what tells a fresh execution from a retry. */
    method StartRow(id: nat, recipe: Recipe, now: int) returns (applied: bool)
      requires Valid(View(), maxSubtasks)
      modifies this
      ensures Valid(View(), maxSubtasks)
      ensures applied == Guarded(old(View()), id, {Pending})
      ensures View() == Start(old(View()), id, recipe, now)
    {
      hide Ordered, RoundsWhole;
      applied := id in rows && rows[id].status == Pending;
      ghost var before := View();
      if applied {
        rows := rows[id := rows[id].(status := Running, recipe := Some(recipe), updatedAt := now)];
      }
      NarrowingKeepsValid(before, View(), maxSubtasks);
    }

    /** Refuses a result without text before it looks at the row. */
    method CompleteRow(id: nat, parts: seq<string>, now: int) returns (r: Result<bool, string>)
      requires Valid(View(), maxSubtasks)
      modifies this
      ensures Valid(View(), maxSubtasks)
      ensures r == if Usable(parts) then Success(Guarded(old(View()), id, {Running})) else Failure("no text part")
      ensures View() == Complete(old(View()), id, parts, now)
    {
      hide Ordered, RoundsWhole;
      var usable := false;
      for i := 0 to |parts|
        invariant usable == exists k :: 0 <= k < i && !Text.Blank(parts[k])
      {
        if !Text.Blank(parts[i]) {
          usable := true;
        }
      }
      if !usable {
        return Failure("no text part");
      }
      var applied := id in rows && rows[id].status == Running;
      ghost var before := View();
      if applied {
        rows := rows[id := rows[id].(status := Completed, results := Some(parts), updatedAt := now, completedAt := Some(now))];
      }
      NarrowingKeepsValid(before, View(), maxSubtasks);
      r := Success(applied);
    }

    method FailRow(id: nat, error: string, now: int) returns (applied: bool)
      requires Valid(View(), maxSubtasks)
      modifies this
      ensures Valid(View(), maxSubtasks)
      ensures applied == Guarded(old(View()), id, {Running, Pending})
      ensures View() == Fail(old(View()), id, error, now)
    {
      hide Ordered, RoundsWhole;
      applied := id in rows && (rows[id].status == Running || rows[id].status == Pending);
      ghost var before := View();
      if applied {
        rows := rows[id := rows[id].(status := Failed, error := Some(error), updatedAt := now, completedAt := Some(now))];
      }
      NarrowingKeepsValid(before, View(), maxSubtasks);
    }

    method CancelRunningRow(id: nat, now: int) returns (applied: bool)
      requires Valid(View(), maxSubtasks)
      modifies this
      ensures Valid(View(), maxSubtasks)
      ensures applied == Guarded(old(View()), id, {Running})
      ensures View() == CancelRunning(old(View()), id, now)
    {
      hide Ordered, RoundsWhole;
      applied := id in rows && rows[id].status == Running;
      ghost var before := View();
      if applied {
        rows := rows[id := rows[id].(status := Canceled, updatedAt := now, completedAt := Some(now))];
      }
      NarrowingKeepsValid(before, View(), maxSubtasks);
    }

    method CancelPendingRows(taskId: string, now: int)
      requires Valid(View(), maxSubtasks)
      modifies this
      ensures Valid(View(), maxSubtasks)
      ensures View() == CancelPending(old(View()), taskId, now)
    {
      hide Ordered, RoundsWhole, RowOk;
      ghost var before := View();
      RowWritesNarrow(before, CancelingPending(taskId, now), maxSubtasks);
      NarrowingKeepsValid(before, CancelPending(before, taskId, now), maxSubtasks);
      CancelEachPending(taskId, now);
    }

    /** The bulk update itself, row by row. */
    method CancelEachPending(taskId: string, now: int)
      requires forall id :: id in rows ==> id < nextId
      modifies this`rows
      ensures View() == CancelPending(old(View()), taskId, now)
    {
      var all := rows;
      for id := 0 to nextId
        invariant rows.Keys == all.Keys
        invariant forall k :: k in all ==> rows[k] == if k < id then CanceledIfPending(all[k], taskId, now) else all[k]
      {
        if id in rows && rows[id].taskId == taskId && rows[id].status == Pending {
          rows := rows[id := rows[id].(status := Canceled, updatedAt := now, completedAt := Some(now))];
        }
      }
      assert rows == CancelPending(Table(all, nextId), taskId, now).rows;
    }

    method CleanupRows(now: int)
      requires Valid(View(), maxSubtasks)
      modifies this
      ensures Valid(View(), maxSubtasks)
      ensures View() == Cleanup(old(View()), now)
    {
      ghost var before := View();
      rows := map id | id in rows && rows[id].createdAt >= now - RETENTION_MS :: rows[id];
      NarrowingKeepsValid(before, View(), maxSubtasks);
    }
  }
}
