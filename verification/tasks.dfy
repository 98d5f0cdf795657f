/**
 * The `notify_tasks` table: the guarded state machine of an asynchronous Task.
 *
 * A write is one synchronous read-check-write, so each method below is atomic.
 * The clock is a parameter of every writer.
 */
module Tasks {
  import opened Wrappers

  /** The task states of section 4.1.3 of the A2A v1.0 specification. */
  datatype TaskState =
    | Unspecified | Submitted | Working | InputRequired | AuthRequired
    | Completed | Failed | Canceled | Rejected

  /** `message` is the text of the status message, which is where a reply travels. */
  datatype Task = Task(id: string, contextId: string, state: TaskState, message: Option<string>, timestamp: int)

  datatype Row = Row(task: Task, messageId: Option<string>, createdAt: int, updatedAt: int)

  type Rows = map<string, Row>

  datatype BeginError = TaskIdTaken

  predicate Terminal(s: TaskState) {
    s.Completed? || s.Failed? || s.Canceled? || s.Rejected?
  }

  /** The two states a cancellation may start from. */
  predicate Active(s: TaskState) {
    s.Submitted? || s.Working?
  }

  /** The state changes that `save` lets through on an existing row. */
  predicate Admits(from: TaskState, to: TaskState) {
    if to.Canceled? then Active(from) || from.Canceled?
    else !from.Canceled? && (Terminal(from) && Terminal(to) ==> from == to)
  }

  /** One row as a single-row view: what `save` leaves and whether it applied. */
  predicate SaveApplies(existing: Option<Task>, incoming: Task) {
    existing.None? || Admits(existing.value.state, incoming.state)
  }

  function SaveOne(existing: Option<Task>, incoming: Task): Option<Task> {
    if SaveApplies(existing, incoming) then Some(incoming) else existing
  }

  function MarkWorkingOne(existing: Option<Task>, now: int): Option<Task> {
    if existing.Some? && existing.value.state.Submitted?
    then Some(existing.value.(state := Working, timestamp := now))
    else existing
  }

  function CancelOne(existing: Option<Task>, now: int): Option<Task> {
    if existing.Some? && Active(existing.value.state)
    then Some(existing.value.(state := Canceled, timestamp := now))
    else existing
  }

  function TaskAt(rows: Rows, id: string): Option<Task> {
    if id in rows then Some(rows[id].task) else None
  }

  /** An upsert keeps the message id and the creation instant of an existing row. */
  function Upsert(rows: Rows, task: Task, now: int): Rows {
    if task.id in rows
    then rows[task.id := rows[task.id].(task := task, updatedAt := now)]
    else rows[task.id := Row(task, None, now, now)]
  }

  /** The table after each writer; a writer that does not apply leaves it alone. */
  function SavedRows(rows: Rows, task: Task, now: int): Rows {
    if SaveApplies(TaskAt(rows, task.id), task) then Upsert(rows, task, now) else rows
  }

  function WorkingRows(rows: Rows, taskId: string, now: int): Rows {
    if taskId in rows && rows[taskId].task.state.Submitted?
    then Upsert(rows, rows[taskId].task.(state := Working, timestamp := now), now)
    else rows
  }

  function CanceledRows(rows: Rows, taskId: string, now: int): Rows {
    if taskId in rows && Active(rows[taskId].task.state)
    then Upsert(rows, rows[taskId].task.(state := Canceled, timestamp := now), now)
    else rows
  }

  predicate IsCanceled(rows: Rows, taskId: string) {
    taskId in rows && rows[taskId].task.state.Canceled?
  }

  /** The three writers touch one task's row, as the single-row view says. */
  lemma WritersTouchOneRow(rows: Rows, task: Task, taskId: string, now: int)
    requires Keyed(rows)
    ensures Keyed(SavedRows(rows, task, now)) && Keyed(WorkingRows(rows, taskId, now)) && Keyed(CanceledRows(rows, taskId, now))
    ensures TaskAt(SavedRows(rows, task, now), task.id) == SaveOne(TaskAt(rows, task.id), task)
    ensures TaskAt(WorkingRows(rows, taskId, now), taskId) == MarkWorkingOne(TaskAt(rows, taskId), now)
    ensures TaskAt(CanceledRows(rows, taskId, now), taskId) == CancelOne(TaskAt(rows, taskId), now)
    ensures forall id :: id != task.id ==> TaskAt(SavedRows(rows, task, now), id) == TaskAt(rows, id)
    ensures forall id :: id != taskId ==>
      TaskAt(WorkingRows(rows, taskId, now), id) == TaskAt(rows, id) == TaskAt(CanceledRows(rows, taskId, now), id)
  {}

  const RETENTION_MS := 30 * 24 * 60 * 60 * 1000

  /** Every row is stored under its own task's id. */
  ghost predicate Keyed(rows: Rows) {
    forall id :: id in rows ==> rows[id].task.id == id
  }

  /** Some row was accepted for this message. */
  ghost predicate Accepted(rows: Rows, messageId: string) {
    exists id :: id in rows && rows[id].messageId == Some(messageId)
  }

  /** The table after a turn is accepted: as it was, when its message was accepted before or its id is taken. */
  ghost function BegunRows(rows: Rows, messageId: string, taskId: string, contextId: string, now: int): Rows {
    if Accepted(rows, messageId) || taskId in rows then rows
    else rows[taskId := Row(Task(taskId, contextId, Submitted, None, now), Some(messageId), now, now)]
  }

  class TaskTable {
    var rows: Rows

    constructor ()
      ensures rows == map[]
    {
      rows := map[];
    }

    /** Accept a turn: idempotent on the gatekeeper's message id. */
    method Begin(messageId: string, taskId: string, contextId: string, now: int)
      returns (r: Result<Task, BeginError>)
      modifies this
      ensures rows == BegunRows(old(rows), messageId, taskId, contextId, now)
      ensures forall id :: id in old(rows) ==> id in rows && rows[id] == old(rows)[id]
      ensures (exists id :: id in old(rows) && old(rows)[id].messageId == Some(messageId)) ==>
        rows == old(rows) && r.Success? &&
        exists id :: id in rows && rows[id].messageId == Some(messageId) && r.value == rows[id].task
      ensures !(exists id :: id in old(rows) && old(rows)[id].messageId == Some(messageId)) ==>
        if taskId in old(rows) then r == Failure(TaskIdTaken) && rows == old(rows)
        else
          && r == Success(Task(taskId, contextId, Submitted, None, now))
          && rows == old(rows)[taskId := Row(r.value, Some(messageId), now, now)]
    {
      if exists id :: id in rows && rows[id].messageId == Some(messageId) {
        var id :| id in rows && rows[id].messageId == Some(messageId);
        return Success(rows[id].task);
      }
      if taskId in rows {
        return Failure(TaskIdTaken);
      }
      var task := Task(taskId, contextId, Submitted, None, now);
      rows := rows[taskId := Row(task, Some(messageId), now, now)];
      r := Success(task);
    }

    /** The guarded upsert. Its verdict is the cancellation check of a delivery. */
    method Save(task: Task, now: int) returns (applied: bool)
      modifies this
      ensures applied == SaveApplies(TaskAt(old(rows), task.id), task)
      ensures rows == SavedRows(old(rows), task, now)
    {
      if task.id !in rows {
        rows := Upsert(rows, task, now);
        return true;
      }
      var existingState := rows[task.id].task.state;
      if existingState.Canceled? && !task.state.Canceled? {
        return false;
      }
      if task.state.Canceled? && !existingState.Submitted? && !existingState.Working? && !existingState.Canceled? {
        return false;
      }
      if Terminal(existingState) && Terminal(task.state) && task.state != existingState {
        return false;
      }
      rows := Upsert(rows, task, now);
      return true;
    }

    /** A turn's first step. Only an actual cancellation stops the turn. */
    method MarkWorking(taskId: string, now: int) returns (ok: bool)
      modifies this
      ensures ok == !IsCanceled(old(rows), taskId)
      ensures rows == WorkingRows(old(rows), taskId, now)
    {
      if taskId !in rows {
        return true;
      }
      var task := rows[taskId].task;
      if task.state.Canceled? {
        return false;
      }
      if !task.state.Submitted? {
        return true;
      }
      rows := Upsert(rows, task.(state := Working, timestamp := now), now);
      return true;
    }

    /** Flip an active task to canceled, and return it. */
    method Cancel(taskId: string, now: int) returns (r: Option<Task>)
      modifies this
      ensures rows == CanceledRows(old(rows), taskId, now)
      ensures r == if taskId in old(rows) && Active(old(rows)[taskId].task.state)
                   then Some(old(rows)[taskId].task.(state := Canceled, timestamp := now)) else None
    {
      if taskId !in rows {
        return None;
      }
      var task := rows[taskId].task;
      if !task.state.Submitted? && !task.state.Working? {
        return None;
      }
      var canceled := task.(state := Canceled, timestamp := now);
      rows := Upsert(rows, canceled, now);
      return Some(canceled);
    }

    /** Delete every task created more than thirty days ago. */
    method Cleanup(now: int)
      modifies this
      ensures forall id :: id in rows <==> id in old(rows) && old(rows)[id].createdAt >= now - RETENTION_MS
      ensures forall id :: id in rows ==> rows[id] == old(rows)[id]
    {
      rows := map id | id in rows && rows[id].createdAt >= now - RETENTION_MS :: rows[id];
    }
  }

  // ---- what any sequence of writers keeps -------------------------------------

  /** The writers of one task's row, other than the cleanup. */
  datatype Write =
    | Saving(task: Task)
    | MarkingWorking(now: int)
    | Canceling(now: int)

  function WriteOne(row: Option<Task>, w: Write): Option<Task> {
    match w
    case Saving(task) => SaveOne(row, task)
    case MarkingWorking(now) => MarkWorkingOne(row, now)
    case Canceling(now) => CancelOne(row, now)
  }

  function WriteAll(row: Option<Task>, ws: seq<Write>): Option<Task>
    decreases ws
  {
    if ws == [] then row else WriteAll(WriteOne(row, ws[0]), ws[1..])
  }

  /** The writers a turn's own Workflow issues: it only ever saves a terminal Task. */
  predicate WorkflowWrite(w: Write) {
    w.Saving? ==> Terminal(w.task.state)
  }

  lemma {:induction false} CanceledIsFinal(row: Option<Task>, ws: seq<Write>)
    requires row.Some? && row.value.state.Canceled?
    ensures WriteAll(row, ws).Some? && WriteAll(row, ws).value.state.Canceled?
    decreases ws
  {
    if ws != [] {
      CanceledIsFinal(WriteOne(row, ws[0]), ws[1..]);
    }
  }

  lemma {:induction false} TerminalIsFinal(row: Option<Task>, ws: seq<Write>)
    requires row.Some? && Terminal(row.value.state)
    requires forall i :: 0 <= i < |ws| ==> WorkflowWrite(ws[i])
    ensures WriteAll(row, ws).Some? && WriteAll(row, ws).value.state == row.value.state
    decreases ws
  {
    if ws != [] {
      assert WorkflowWrite(ws[0]);
      TerminalIsFinal(WriteOne(row, ws[0]), ws[1..]);
    }
  }

  /**
   * `save` alone does not make a terminal state final: it keeps one exactly when
   * the incoming state is terminal too, or the row is canceled.
   */
  lemma SaveKeepsTerminalStateExactlyWhen(existing: Task, incoming: Task)
    requires Terminal(existing.state)
    ensures SaveOne(Some(existing), incoming).value.state == existing.state
       <==> Terminal(incoming.state) || existing.state.Canceled?
  {
    if !existing.state.Canceled? && !Terminal(incoming.state) {
      assert Admits(existing.state, incoming.state);
    }
  }

  /** A late save of the accepted Task reopens a completed one, and then it can be canceled. */
  lemma SaveReopensACompletedTask(answer: string)
    ensures
      var completed := Task("t", "c", Completed, Some(answer), 1);
      var accepted := Task("t", "c", Submitted, None, 0);
      WriteAll(Some(completed), [Saving(accepted), Canceling(2)])
        == Some(Task("t", "c", Canceled, None, 2))
  {
    var completed := Task("t", "c", Completed, Some(answer), 1);
    var accepted := Task("t", "c", Submitted, None, 0);
    assert WriteOne(Some(completed), Saving(accepted)) == Some(accepted);
    assert [Saving(accepted), Canceling(2)][1..] == [Canceling(2)];
    assert WriteAll(Some(accepted), [Canceling(2)]) == CancelOne(Some(accepted), 2);
  }

  // ---- what the writers leave of a row ------------------------------------------

  /** Every writer of the table but the cleanup. */
  datatype TableWrite =
    | Begins(messageId: string, taskId: string, contextId: string, now: int)
    | Saves(task: Task, now: int)
    | Works(taskId: string, now: int)
    | Cancels(taskId: string, now: int)

  ghost function WrittenRows(rows: Rows, w: TableWrite): Rows {
    match w
    case Begins(messageId, taskId, contextId, now) => BegunRows(rows, messageId, taskId, contextId, now)
    case Saves(task, now) => SavedRows(rows, task, now)
    case Works(taskId, now) => WorkingRows(rows, taskId, now)
    case Cancels(taskId, now) => CanceledRows(rows, taskId, now)
  }

  ghost function AfterWrites(rows: Rows, ws: seq<TableWrite>): Rows
    decreases ws
  {
    if ws == [] then rows else AfterWrites(WrittenRows(rows, ws[0]), ws[1..])
  }

  /** No writer touches a row's message id or creation instant, and one that changes the row stamps it. */
  ghost predicate KeepsColumns(before: Row, after: Row, now: int) {
    && after.messageId == before.messageId && after.createdAt == before.createdAt
    && (after != before ==> after.updatedAt == now)
  }

  lemma WriteKeepsColumns(rows: Rows, w: TableWrite, id: string)
    requires Keyed(rows) && id in rows
    ensures Keyed(WrittenRows(rows, w))
    ensures id in WrittenRows(rows, w) && KeepsColumns(rows[id], WrittenRows(rows, w)[id], w.now)
  {}

  /** Message ids tell rows apart. */
  ghost predicate Told(rows: Rows) {
    forall i, j :: i in rows && j in rows && rows[i].messageId.Some? && rows[i].messageId == rows[j].messageId ==> i == j
  }

  lemma WriteKeepsTold(rows: Rows, w: TableWrite)
    requires Keyed(rows) && Told(rows)
    ensures Told(WrittenRows(rows, w)) && Keyed(WrittenRows(rows, w))
  {
    var after := WrittenRows(rows, w);
    forall i, j | i in after && j in after && after[i].messageId.Some? && after[i].messageId == after[j].messageId
      ensures i == j
    {
      if i in rows {
        WriteKeepsColumns(rows, w, i);
      }
      if j in rows {
        WriteKeepsColumns(rows, w, j);
      }
    }
  }

  lemma {:induction false} ColumnsLast(rows: Rows, ws: seq<TableWrite>, id: string)
    requires Keyed(rows) && id in rows
    ensures id in AfterWrites(rows, ws)
    ensures AfterWrites(rows, ws)[id].messageId == rows[id].messageId && AfterWrites(rows, ws)[id].createdAt == rows[id].createdAt
    decreases ws
  {
    if ws != [] {
      WriteKeepsColumns(rows, ws[0], id);
      ColumnsLast(WrittenRows(rows, ws[0]), ws[1..], id);
    }
  }

  lemma {:induction false} ToldLasts(rows: Rows, ws: seq<TableWrite>)
    requires Keyed(rows) && Told(rows)
    ensures Keyed(AfterWrites(rows, ws)) && Told(AfterWrites(rows, ws))
    decreases ws
  {
    hide Told, Keyed, WrittenRows;
    if ws != [] {
      WriteKeepsTold(rows, ws[0]);
      ToldLasts(WrittenRows(rows, ws[0]), ws[1..]);
    }
  }

  /**
   * Accepting a message again, whatever was written in between, changes nothing and
   * finds the one row it was accepted for: the gatekeeper may repeat itself for as
   * long as the row lives.
   */
  lemma BeginIsIdempotent(rows: Rows, ws: seq<TableWrite>, id: string, messageId: string, taskId: string, contextId: string, now: int)
    requires Keyed(rows) && Told(rows) && id in rows && rows[id].messageId == Some(messageId)
    ensures
      var after := AfterWrites(rows, ws);
      && BegunRows(after, messageId, taskId, contextId, now) == after
      && id in after && after[id].createdAt == rows[id].createdAt
      && forall other :: other in after && after[other].messageId == Some(messageId) <==> other == id
  {
    ColumnsLast(rows, ws, id);
    ToldLasts(rows, ws);
  }
}
