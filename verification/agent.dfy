/**
 * The Durable Object that owns a Task: the guarded tables, the Session, and the
 * bodies of the Workflow's steps.
 *
 * A body runs in segments. A segment is what happens between two points where the
 * object really gives up control (a model call, a child call, a plugin hook, a
 * Session append that may compact); it is atomic. Each segment is specified as a
 * function of the stores, and the class below runs it on the tables themselves.
 */
module Agent {
  import opened Wrappers
  import History
  import Subtasks
  import Tasks
  import Workflow

  type Session = map<History.Key, string>

  datatype Store = Store(tasks: Tasks.Rows, subtasks: Subtasks.Table, session: Session)

  /** What the attempt ladder of a round came to, when it did not throw. */
  datatype Inference =
    | Replying(text: string)
    | Delegating(reply: string, drafts: seq<Subtasks.Draft>)
    | Failing(kind: Workflow.FailureKind, error: string)

  datatype ChildResult = ChildCompleted(parts: seq<string>) | ChildFailed(error: string)

  /** What one chunk of a child's run came to. */
  datatype Chunk = Yielded | Ended(result: ChildResult)

  /** A subtask's type, resolved: a recipe to run, or what to record when there is none. */
  datatype Resolved = Usable(recipe: Subtasks.Recipe) | Unusable(recipe: Subtasks.Recipe, why: string)

  /** Where a body stands between two segments. */
  datatype Body =
    | Inferring
    | Appended(inference: Inference, turns: nat)
    | Executing(taskId: string)
    | Enriching(taskId: string, result: ChildResult)
    | Finished(value: Workflow.Value)

  /** What a round told its caller: an answer, or the rows it handed out and their acknowledgment. */
  datatype Said = Answered(round: nat, text: string) | Handed(round: nat, ids: set<nat>, ack: string)

  /** A segment's effect. No body: the segment threw, and the attempt is over. */
  datatype Segment = Segment(store: Store, body: Option<Body>, said: Option<Said>)

  function Quiet(s: Store, body: Body): Segment {
    Segment(s, Some(body), None)
  }

  function AppendOnce(session: Session, key: History.Key, text: string): (after: Session)
    ensures key in after && (key in session ==> after == session)
    ensures forall k :: k in session ==> k in after && after[k] == session[k]
  {
    if key in session then session else session[key := text]
  }

  function Rows(s: Store, taskId: string, round: nat): set<nat> {
    Subtasks.RoundIds(s.subtasks, taskId, round)
  }

  // ---- a round's turn -------------------------------------------------------------------------

  /** The recovery order: a cancellation, an answer, this round's rows, and only then the model. */
  function EnterTurn(s: Store, taskId: string, round: nat, text: string, recovered: string): Segment {
    var final, ack := History.FinalKey(taskId), History.AckKey(taskId, round);
    if Tasks.IsCanceled(s.tasks, taskId) then Quiet(s, Finished(Workflow.Turned(Workflow.Canceled, 0)))
    else if final in s.session then
      Segment(s, Some(Finished(Workflow.Turned(Workflow.Replied(s.session[final]), 0))), Some(Answered(round, s.session[final])))
    else if Rows(s, taskId, round) != {} then
      Segment(s, Some(Finished(Workflow.Turned(Workflow.Delegated, 0))),
              Some(Handed(round, Rows(s, taskId, round), if ack in s.session then s.session[ack] else recovered)))
    else
      Quiet(if round == 0 then s.(session := AppendOnce(s.session, History.UserKey(taskId), text)) else s, Inferring)
  }

  /** The decision is appended before anything else, and what counts from here on is what is stored. */
  function AppendDecision(s: Store, taskId: string, round: nat, inference: Inference, turns: nat): Segment {
    match inference
    case Failing(kind, error) => Quiet(s, Finished(Workflow.Turned(Workflow.Failed(kind, error), turns)))
    case Replying(text) =>
      var session := AppendOnce(s.session, History.FinalKey(taskId), text);
      Quiet(s.(session := session), Appended(Replying(session[History.FinalKey(taskId)]), turns))
    case Delegating(reply, drafts) =>
      var session := AppendOnce(s.session, History.AckKey(taskId, round), reply);
      Quiet(s.(session := session), Appended(Delegating(session[History.AckKey(taskId, round)], drafts), turns))
  }

  /** Cancellation is read again, in the same segment as the rows are written. */
  function CommitDecision(s: Store, taskId: string, round: nat, inference: Inference, turns: nat, max: nat, now: int): Segment
    requires !inference.Failing?
  {
    if Tasks.IsCanceled(s.tasks, taskId) then Quiet(s, Finished(Workflow.Turned(Workflow.Canceled, turns)))
    else
      match inference
      case Replying(text) =>
        Segment(s, Some(Finished(Workflow.Turned(Workflow.Replied(text), turns))), Some(Answered(round, text)))
      case Delegating(reply, drafts) =>
        if !Subtasks.CreateAccepts(s.subtasks, taskId, round, drafts, max) then Segment(s, None, None)
        else
          var after := s.(subtasks := Subtasks.Create(s.subtasks, taskId, round, drafts, max, now));
          Segment(after, Some(Finished(Workflow.Turned(Workflow.Delegated, turns))), Some(Handed(round, Rows(after, taskId, round), reply)))
  }

  // ---- a subtask's chunk -------------------------------------------------------------------------

  predicate Unfinished(s: Store, id: nat) {
    id in s.subtasks.rows && !Subtasks.Terminal(s.subtasks.rows[id].status)
  }

  function Done(s: Store): Segment {
    Quiet(s, Finished(Workflow.Flag(true)))
  }

  /** Terminal and canceled rows end here; an unusable recipe fails the row; otherwise the row is claimed. */
  function PrepareChunk(s: Store, id: nat, resolved: Resolved, now: int): Segment {
    if id !in s.subtasks.rows then Segment(s, None, None)
    else if !Unfinished(s, id) then Done(s)
    else
      var taskId := s.subtasks.rows[id].taskId;
      if Tasks.IsCanceled(s.tasks, taskId) then Done(s.(subtasks := Subtasks.CancelRunning(s.subtasks, id, now)))
      else
        var claimed := s.(subtasks := Subtasks.Start(s.subtasks, id, resolved.recipe, now));
        match resolved
        case Unusable(_, why) => Done(claimed.(subtasks := Subtasks.Fail(claimed.subtasks, id, why, now)))
        case Usable(_) => Quiet(claimed, Executing(taskId))
  }

  /** Cancellation is read before anything the chunk produced is used. */
  function ReceiveChunk(s: Store, id: nat, taskId: string, chunk: Chunk, now: int): Segment {
    if Tasks.IsCanceled(s.tasks, taskId) then
      var after := s.(subtasks := Subtasks.CancelRunning(s.subtasks, id, now));
      if id in s.subtasks.rows then Done(after) else Segment(after, None, None)
    else
      match chunk
      case Yielded => Quiet(s, Finished(Workflow.Flag(false)))
      case Ended(result) => Quiet(s, Enriching(taskId, result))
  }

  const MALFORMED := "malformed result"

  /** A completed result without text is recorded as a failure. */
  function PersistResult(s: Store, id: nat, result: ChildResult, now: int): Segment {
    var complete := result.ChildCompleted? && Subtasks.Usable(result.parts);
    var persisted := Subtasks.Guarded(s.subtasks, id, if complete then {Subtasks.Running} else {Subtasks.Running, Subtasks.Pending});
    var after := s.(subtasks :=
      if complete then Subtasks.Complete(s.subtasks, id, result.parts, now)
      else Subtasks.Fail(s.subtasks, id, if result.ChildFailed? then result.error else MALFORMED, now));
    if persisted || (id in s.subtasks.rows && !Unfinished(s, id)) then Done(after) else Segment(after, None, None)
  }

  // ---- the other steps --------------------------------------------------------------------------------

  function Owing(s: Store, taskId: string, round: nat): set<nat> {
    set id | id in Rows(s, taskId, round) && !Subtasks.Terminal(s.subtasks.rows[id].status)
  }

  function ScanRound(s: Store, taskId: string, round: nat): Segment {
    Quiet(s, Finished(if Tasks.IsCanceled(s.tasks, taskId) then Workflow.Scanned(true, {})
                      else Workflow.Scanned(false, Owing(s, taskId, round))))
  }

  function CancelPendingOf(s: Store, taskId: string, now: int): Segment {
    Quiet(s.(subtasks := Subtasks.CancelPending(s.subtasks, taskId, now)), Finished(Workflow.Unit))
  }

  function FailSubtask(s: Store, id: nat, error: string, now: int): Segment {
    Quiet(s.(subtasks := Subtasks.Fail(s.subtasks, id, error, now)), Finished(Workflow.Unit))
  }

  function BeginWork(s: Store, taskId: string, now: int): Segment {
    Quiet(s.(tasks := Tasks.WorkingRows(s.tasks, taskId, now)), Finished(Workflow.Flag(!Tasks.IsCanceled(s.tasks, taskId))))
  }

  /** The `complete` step. A terminal Task that is not canceled goes straight to the guarded write. */
  function SaveTerminal(s: Store, task: Tasks.Task, now: int): Segment
    requires !task.state.Canceled?
  {
    var applied := Tasks.SaveApplies(Tasks.TaskAt(s.tasks, task.id), task);
    Quiet(s.(tasks := Tasks.SavedRows(s.tasks, task, now)), Finished(Workflow.Saved(if applied then Some(task) else None)))
  }

  // ---- cancellation: the flip and the bulk cancel are one segment ------------------------------------------

  function CancelTask(s: Store, taskId: string, now: int): Store {
    if taskId in s.tasks && Tasks.Active(s.tasks[taskId].task.state)
    then Store(Tasks.CanceledRows(s.tasks, taskId, now), Subtasks.CancelPending(s.subtasks, taskId, now), s.session)
    else s
  }

  /** `saveTask` as the host exposes it: a canceled Task takes the cancellation path. */
  function HostSave(s: Store, task: Tasks.Task, now: int): Store {
    if task.state.Canceled? && Tasks.SaveApplies(Tasks.TaskAt(s.tasks, task.id), task)
    then Store(Tasks.SavedRows(s.tasks, task, now), Subtasks.CancelPending(s.subtasks, task.id, now), s.session)
    else s.(tasks := Tasks.SavedRows(s.tasks, task, now))
  }

  /** What the cancellation's later segments do to a row whose child had nothing in flight. */
  function ResolveRunning(s: Store, id: nat, now: int): Store {
    s.(subtasks := Subtasks.CancelRunning(s.subtasks, id, now))
  }

  // ---- the object -------------------------------------------------------------------------------------------

  class RoundAgent {
    const tasks: Tasks.TaskTable
    const subtasks: Subtasks.SubtaskTable
    var session: Session

    constructor (tasks: Tasks.TaskTable, subtasks: Subtasks.SubtaskTable)
      ensures this.tasks == tasks && this.subtasks == subtasks && session == map[]
    {
      this.tasks, this.subtasks, session := tasks, subtasks, map[];
    }

    ghost predicate Valid()
      reads this, subtasks
    {
      Subtasks.Valid(subtasks.View(), subtasks.maxSubtasks)
    }

    function View(): Store
      reads this, tasks, subtasks
    {
      Store(tasks.rows, subtasks.View(), session)
    }

    method IsTaskCanceled(taskId: string) returns (canceled: bool)
      ensures canceled == Tasks.IsCanceled(tasks.rows, taskId)
    {
      canceled := taskId in tasks.rows && tasks.rows[taskId].task.state == Tasks.Canceled;
    }

    /** Append under a deterministic key, and read back what is stored. */
    method Append(key: History.Key, text: string) returns (stored: string)
      modifies this`session
      ensures session == AppendOnce(old(session), key, text)
      ensures stored == session[key]
    {
      if key !in session {
        session := session[key := text];
      }
      stored := session[key];
    }

    /** `decideRound` up to the model call. */
    method Enter(taskId: string, round: nat, text: string, recovered: string) returns (body: Body, said: Option<Said>)
      requires Valid()
      modifies this`session
      ensures Valid()
      ensures Segment(View(), Some(body), said) == EnterTurn(old(View()), taskId, round, text, recovered)
    {
      var canceled := IsTaskCanceled(taskId);
      if canceled {
        return Finished(Workflow.Turned(Workflow.Canceled, 0)), None;
      }
      var final, ack := History.FinalKey(taskId), History.AckKey(taskId, round);
      if final in session {
        return Finished(Workflow.Turned(Workflow.Replied(session[final]), 0)), Some(Answered(round, session[final]));
      }
      var existing := subtasks.ListRound(taskId, round);
      ghost var rows := Rows(View(), taskId, round);
      if |existing| > 0 {
        assert existing[0] in rows;
        var ids := set id | id in existing;
        assert ids == rows;
        var reply := if ack in session then session[ack] else recovered;
        return Finished(Workflow.Turned(Workflow.Delegated, 0)), Some(Handed(round, ids, reply));
      }
      assert rows == {} by {
        assert forall id :: id in rows ==> id in existing;
      }
      if round == 0 {
        var stored := Append(History.UserKey(taskId), text);
      }
      return Inferring, None;
    }

    /** The append at the end of `runTurn`. */
    method Decide(taskId: string, round: nat, inference: Inference, turns: nat) returns (body: Body)
      requires Valid()
      modifies this`session
      ensures Valid()
      ensures Quiet(View(), body) == AppendDecision(old(View()), taskId, round, inference, turns)
    {
      match inference
      case Failing(kind, error) =>
        return Finished(Workflow.Turned(Workflow.Failed(kind, error), turns));
      case Replying(text) =>
        var reply := Append(History.FinalKey(taskId), text);
        return Appended(Replying(reply), turns);
      case Delegating(reply, drafts) =>
        var stored := Append(History.AckKey(taskId, round), reply);
        return Appended(Delegating(stored, drafts), turns);
    }

    /** `decideRound` after the append. */
    method Commit(taskId: string, round: nat, inference: Inference, turns: nat, now: int) returns (body: Option<Body>, said: Option<Said>)
      requires Valid() && !inference.Failing?
      modifies subtasks
      ensures Valid()
      ensures Segment(View(), body, said) == CommitDecision(old(View()), taskId, round, inference, turns, subtasks.maxSubtasks, now)
    {
      var canceled := IsTaskCanceled(taskId);
      if canceled {
        return Some(Finished(Workflow.Turned(Workflow.Canceled, turns))), None;
      }
      if inference.Replying? {
        return Some(Finished(Workflow.Turned(Workflow.Replied(inference.text), turns))), Some(Answered(round, inference.text));
      }
      var created := subtasks.CreateDecomposition(taskId, round, inference.drafts, now);
      if created.Failure? {
        return None, None;
      }
      var ids := set id | id in created.value;
      assert ids == Rows(View(), taskId, round);
      return Some(Finished(Workflow.Turned(Workflow.Delegated, turns))), Some(Handed(round, ids, inference.reply));
    }

    /** `prepareChunk`: nothing is returned for a row that does not exist. */
    method Prepare(id: nat, resolved: Resolved, now: int) returns (body: Option<Body>)
      requires Valid()
      modifies subtasks
      ensures Valid()
      ensures Segment(View(), body, None) == PrepareChunk(old(View()), id, resolved, now)
    {
      if id !in subtasks.rows {
        return None;
      }
      var row := subtasks.rows[id];
      if row.status != Subtasks.Pending && row.status != Subtasks.Running {
        return Some(Finished(Workflow.Flag(true)));
      }
      var canceled := IsTaskCanceled(row.taskId);
      if canceled {
        if row.status == Subtasks.Running {
          var applied := subtasks.CancelRunningRow(id, now);
        }
        return Some(Finished(Workflow.Flag(true)));
      }
      var claimed := subtasks.StartRow(id, resolved.recipe, now);
      if resolved.Unusable? {
        var applied := subtasks.FailRow(id, resolved.why, now);
        return Some(Finished(Workflow.Flag(true)));
      }
      return Some(Executing(row.taskId));
    }

    /** What follows the child's return. */
    method Receive(id: nat, taskId: string, chunk: Chunk, now: int) returns (body: Option<Body>)
      requires Valid()
      modifies subtasks
      ensures Valid()
      ensures Segment(View(), body, None) == ReceiveChunk(old(View()), id, taskId, chunk, now)
    {
      var canceled := IsTaskCanceled(taskId);
      if canceled {
        var applied := subtasks.CancelRunningRow(id, now);
        return if id in subtasks.rows then Some(Finished(Workflow.Flag(true))) else None;
      }
      match chunk
      case Yielded => return Some(Finished(Workflow.Flag(false)));
      case Ended(result) => return Some(Enriching(taskId, result));
    }

    /** `persistResult`, and what its verdict means for the step. */
    method Persist(id: nat, result: ChildResult, now: int) returns (body: Option<Body>)
      requires Valid()
      modifies subtasks
      ensures Valid()
      ensures Segment(View(), body, None) == PersistResult(old(View()), id, result, now)
    {
      hide Subtasks.Ordered, Subtasks.RoundsWhole, Subtasks.RowOk;
      var persisted;
      if result.ChildFailed? {
        persisted := subtasks.FailRow(id, result.error, now);
      } else {
        var completed := subtasks.CompleteRow(id, result.parts, now);
        if completed.Success? {
          persisted := completed.value;
        } else {
          persisted := subtasks.FailRow(id, MALFORMED, now);
        }
      }
      if !persisted {
        if id !in subtasks.rows || subtasks.rows[id].status == Subtasks.Pending || subtasks.rows[id].status == Subtasks.Running {
          return None;
        }
      }
      return Some(Finished(Workflow.Flag(true)));
    }

    method Scan(taskId: string, round: nat) returns (body: Body)
      requires Valid()
      ensures Quiet(View(), body) == ScanRound(View(), taskId, round)
    {
      hide Subtasks.Ordered, Subtasks.RoundsWhole, Subtasks.RowOk, Subtasks.InListOrder;
      var canceled := IsTaskCanceled(taskId);
      if canceled {
        return Finished(Workflow.Scanned(true, {}));
      }
      var all := subtasks.ListRound(taskId, round);
      var ids := set id | id in all && (subtasks.rows[id].status == Subtasks.Pending || subtasks.rows[id].status == Subtasks.Running);
      assert ids == Owing(View(), taskId, round);
      return Finished(Workflow.Scanned(false, ids));
    }

    /** The best-effort half of giving up on a branch happens only when the guarded write applied. */
    method Fail(id: nat, error: string, now: int) returns (torndown: bool)
      requires Valid()
      modifies subtasks
      ensures Valid()
      ensures Quiet(View(), Finished(Workflow.Unit)) == FailSubtask(old(View()), id, error, now)
      ensures torndown == Unfinished(old(View()), id)
    {
      if id !in subtasks.rows {
        return false;
      }
      torndown := subtasks.FailRow(id, error, now);
    }

    method MarkWorking(taskId: string, now: int) returns (ok: bool)
      requires Valid()
      modifies tasks
      ensures Valid()
      ensures Quiet(View(), Finished(Workflow.Flag(ok))) == BeginWork(old(View()), taskId, now)
    {
      ok := tasks.MarkWorking(taskId, now);
    }

    method CancelPendingSubtasks(taskId: string, now: int)
      requires Valid()
      modifies subtasks
      ensures Valid()
      ensures Quiet(View(), Finished(Workflow.Unit)) == CancelPendingOf(old(View()), taskId, now)
    {
      subtasks.CancelPendingRows(taskId, now);
    }

    /** A later segment of the cancellation, for a row whose child says that nothing was in flight. */
    method ResolveRunningRow(id: nat, now: int) returns (resolved: bool)
      requires Valid()
      modifies subtasks
      ensures Valid()
      ensures View() == ResolveRunning(old(View()), id, now)
      ensures resolved == Subtasks.Guarded(old(View()).subtasks, id, {Subtasks.Running})
    {
      resolved := subtasks.CancelRunningRow(id, now);
    }

    /** `markCanceled`: the verdict of the flip decides whether anything is interrupted. */
    method MarkCanceled(taskId: string, task: Option<Tasks.Task>, now: int) returns (canceled: bool)
      requires Valid() && (task.Some? ==> task.value.id == taskId && task.value.state.Canceled?)
      modifies tasks, subtasks
      ensures Valid()
      ensures View() == if task.Some? then HostSave(old(View()), task.value, now) else CancelTask(old(View()), taskId, now)
      ensures canceled == if task.Some? then Tasks.SaveApplies(Tasks.TaskAt(old(tasks.rows), taskId), task.value)
                          else taskId in old(tasks.rows) && Tasks.Active(old(tasks.rows)[taskId].task.state)
    {
      if task.Some? {
        canceled := tasks.Save(task.value, now);
      } else {
        var flipped := tasks.Cancel(taskId, now);
        canceled := flipped.Some?;
      }
      if canceled {
        subtasks.CancelPendingRows(taskId, now);
      }
    }

    method SaveTask(task: Tasks.Task, now: int) returns (applied: bool)
      requires Valid()
      modifies tasks, subtasks
      ensures Valid()
      ensures View() == HostSave(old(View()), task, now)
      ensures applied == Tasks.SaveApplies(Tasks.TaskAt(old(tasks.rows), task.id), task)
    {
      if task.state.Canceled? {
        applied := MarkCanceled(task.id, Some(task), now);
        return;
      }
      applied := tasks.Save(task, now);
    }
  }
}
