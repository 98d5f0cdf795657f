/**
 * What the protocol promises over every run: an ended orchestration leaves no open
 * subtask, a round speaks once, a canceled Task stays idle, and a Task is metered.
 */
module Safety {
  import opened Wrappers
  import opened Workflow
  import opened Agent
  import opened Protocol
  import Budget
  import Replay
  import Subtasks
  import Tasks

  /** A Task nobody has worked on: no rows, no answer, no journal. */
  ghost predicate Initial(c: Config, w: World) {
    && Sound(c, w.store)
    && (forall id :: id in w.store.subtasks.rows ==> w.store.subtasks.rows[id].taskId != c.taskId)
    && Final(c) !in w.store.session
    && w.journal == map[] && w.bodies == map[] && w.posted == [] && w.said == []
  }

  lemma InitiallyInv(c: Config, w: World)
    requires Initial(c, w)
    ensures Inv(c, w)
  {
    forall round
      ensures Of(c, w.store, round) == {}
    {}
  }

  ghost predicate AllEnabled(c: Config, w: World, actions: seq<Action>)
    decreases actions
  {
    actions == [] || (Enabled(c, w, actions[0]) && AllEnabled(c, Next(c, w, actions[0]), actions[1..]))
  }

  function After(c: Config, w: World, actions: seq<Action>): World
    decreases actions
  {
    if actions == [] then w else After(c, Next(c, w, actions[0]), actions[1..])
  }

  lemma {:induction false} RunsKeepInv(c: Config, w: World, actions: seq<Action>)
    requires Inv(c, w) && AllEnabled(c, w, actions)
    ensures Inv(c, After(c, w, actions))
    decreases actions
  {
    hide Inv, Enabled, Next;
    if actions != [] {
      StepKeepsInv(c, w, actions[0]);
      RunsKeepInv(c, Next(c, w, actions[0]), actions[1..]);
    }
  }

  lemma {:induction false} RunsCompose(c: Config, w: World, first: seq<Action>, second: seq<Action>)
    ensures AllEnabled(c, w, first + second) <==> AllEnabled(c, w, first) && AllEnabled(c, After(c, w, first), second)
    ensures After(c, w, first + second) == After(c, After(c, w, first), second)
    decreases first
  {
    hide Enabled, Next;
    if first == [] {
      assert first + second == second;
    } else {
      assert (first + second)[1..] == first[1..] + second;
      RunsCompose(c, Next(c, w, first[0]), first[1..], second);
    }
  }

  // ---- an ended orchestration leaves every row terminal --------------------------------------------

  ghost predicate OpenRow(c: Config, s: Store, id: nat) {
    id in s.subtasks.rows && s.subtasks.rows[id].taskId == c.taskId && !Subtasks.Terminal(s.subtasks.rows[id].status)
  }

  lemma RecordKnown(c: Config, w: World, n: StepName)
    requires Inv(c, w) && n in w.journal && w.journal[n].Returned?
    ensures BodyFact(c, w.store, n, Finished(w.journal[n].value))
    ensures Replay.Names(Calls(c, w.journal), n)
  {}

  /** An open row of a canceled Task is running, so its round was scanned alive and its turn delegated. */
  lemma OpenRowOfCanceled(c: Config, w: World, id: nat)
    requires Inv(c, w) && OpenRow(c, w.store, id) && Tasks.IsCanceled(w.store.tasks, c.taskId)
    ensures
      var round := w.store.subtasks.rows[id].round;
      Covered(w.journal, id, round) && Replay.DelegatedAt(w.journal, round)
  {
    var round := w.store.subtasks.rows[id].round;
    assert Covered(w.journal, id, round);
    var call :| call in Calls(c, w.journal) && call.name == Scan(round);
    CallsAreSourced(c, w.journal, call);
  }

  lemma RowHasTurn(c: Config, w: World, id: nat) returns (call: Call)
    requires Inv(c, w) && OpenRow(c, w.store, id)
    ensures call in Orchestrate(w.journal, c.limits).calls && call.name == Turn(w.store.subtasks.rows[id].round)
    ensures Of(c, w.store, w.store.subtasks.rows[id].round) != {}
  {
    var round := w.store.subtasks.rows[id].round;
    assert id in Of(c, w.store, round);
    var remaining: int :| Call(Turn(round), Turning(Budget.Open, remaining)) in Calls(c, w.journal);
    call := Call(Turn(round), Turning(Budget.Open, remaining));
    CallsAreSourced(c, w.journal, call);
  }

  lemma PassedRowIsSettled(c: Config, w: World, id: nat, round: nat)
    requires Inv(c, w) && id in Of(c, w.store, round)
    requires Replay.Passed(w.journal, round)
    ensures Settled(w.store, id)
  {
    hide Inv;
    var j := w.journal;
    RecordKnown(c, w, Scan(round));
    var ids := j[Scan(round)].value.ids;
    if id in ids {
      assert Branch(j, id, 0).end == End.Ended;
      Replay.BranchEnded(j, id, 0);
      if FailBranch(id) in j && j[FailBranch(id)].Returned? {
        RecordKnown(c, w, FailBranch(id));
      } else {
        var chunk :| Execute(id, chunk) in j && j[Execute(id, chunk)] == Returned(Flag(true));
        RecordKnown(c, w, Execute(id, chunk));
      }
    }
  }

  /** Whenever `orchestrate` has come to a normal end, by any exit, every row of the Task is terminal. */
  lemma EndedLeavesNothingOpen(c: Config, w: World, id: nat)
    requires Inv(c, w) && Orchestrate(w.journal, c.limits).end == End.Ended
    ensures !OpenRow(c, w.store, id)
  {
    if OpenRow(c, w.store, id) {
      hide Inv, Workflow.Orchestrate;
      var j, round := w.journal, w.store.subtasks.rows[id].round;
      var call := RowHasTurn(c, w, id);
      Replay.OrchestrationEnds(j, c.limits);
      RecordKnown(c, w, Turn(round));
      assert id in Of(c, w.store, round);
      match j[Turn(round)].value.verdict
      case Delegated =>
        if j[Scan(round)].value.canceled {
          RecordKnown(c, w, Scan(round));
          OpenRowOfCanceled(c, w, id);
          assert false;
        } else {
          PassedRowIsSettled(c, w, id, round);
          assert false;
        }
      case Canceled =>
        OpenRowOfCanceled(c, w, id);
        assert false;
      case _ => assert false;
    }
  }

  /** The same, over every run. */
  lemma EveryEndedRunIsComplete(c: Config, w: World, actions: seq<Action>, id: nat)
    requires Initial(c, w) && AllEnabled(c, w, actions)
    requires Orchestrate(After(c, w, actions).journal, c.limits).end == End.Ended
    ensures !OpenRow(c, After(c, w, actions).store, id)
  {
    hide Inv;
    InitiallyInv(c, w);
    RunsKeepInv(c, w, actions);
    EndedLeavesNothingOpen(c, After(c, w, actions), id);
  }

  // ---- a round speaks once ------------------------------------------------------------------------------

  /** No two verdicts contradict each other. */
  ghost predicate Agree(a: Said, b: Said) {
    match (a, b)
    case (Answered(_, text), Answered(_, other)) => text == other
    case (Handed(round, ids, ack), Handed(otherRound, otherIds, otherAck)) => round == otherRound ==> ids == otherIds && ack == otherAck
    case (Answered(round, _), Handed(otherRound, _, _)) => round != otherRound
    case (Handed(round, _, _), Answered(otherRound, _)) => round != otherRound
  }

  /**
   * Over any crashes and retries: all answers are the one stored text, a round
   * always hands out the same rows under the same acknowledgment, and no round
   * both answers and hands out.
   */
  lemma VerdictsAgree(c: Config, w: World, actions: seq<Action>, i: nat, k: nat)
    requires Initial(c, w) && AllEnabled(c, w, actions)
    requires i < |After(c, w, actions).said| && k < |After(c, w, actions).said|
    ensures Agree(After(c, w, actions).said[i], After(c, w, actions).said[k])
  {
    InitiallyInv(c, w);
    RunsKeepInv(c, w, actions);
    var v := After(c, w, actions);
    assert SaidFact(c, v.store, v.said[i]) && SaidFact(c, v.store, v.said[k]);
  }

  // ---- a canceled Task stays canceled, and idle -------------------------------------------------------------

  /** Nothing of the Task was created or claimed between the two. */
  ghost predicate NothingBegun(c: Config, s: Store, t: Store) {
    && Tasks.IsCanceled(t.tasks, c.taskId)
    && forall id :: id in t.subtasks.rows && t.subtasks.rows[id].taskId == c.taskId ==>
         && id in s.subtasks.rows && s.subtasks.rows[id].taskId == c.taskId
         && (t.subtasks.rows[id].status.Running? ==> s.subtasks.rows[id].status.Running?)
         && !t.subtasks.rows[id].status.Pending?
  }

  lemma TasksStayCanceled(c: Config, s: Store, task: Tasks.Task, taskId: string, now: int)
    requires Tasks.Keyed(s.tasks) && Tasks.IsCanceled(s.tasks, c.taskId)
    ensures Tasks.IsCanceled(Tasks.SavedRows(s.tasks, task, now), c.taskId)
    ensures Tasks.IsCanceled(Tasks.WorkingRows(s.tasks, taskId, now), c.taskId)
    ensures Tasks.IsCanceled(Tasks.CanceledRows(s.tasks, taskId, now), c.taskId)
  {}

  ghost predicate Stopped(c: Config, s: Store) {
    Sound(c, s) && Idle(c, s) && Tasks.IsCanceled(s.tasks, c.taskId)
  }

  lemma CanceledIsStopped(c: Config, w: World)
    requires Inv(c, w) && Tasks.IsCanceled(w.store.tasks, c.taskId)
    ensures Stopped(c, w.store)
  {}

  lemma WriteBeginsNothing(c: Config, s: Store, t: Store, op: Subtasks.Op)
    requires Stopped(c, s) && Tasks.IsCanceled(t.tasks, c.taskId)
    requires t.subtasks == Subtasks.Apply(s.subtasks, op, c.max) && !op.Creating? && !op.Cleaning?
    requires op.Starting? && op.id in s.subtasks.rows ==> s.subtasks.rows[op.id].taskId != c.taskId
    ensures NothingBegun(c, s, t)
  {
    WritesMove(s.subtasks, op, c.max);
    hide Subtasks.Apply, Subtasks.Valid;
    forall id | id in t.subtasks.rows
      ensures RowMoves(s.subtasks.rows[id], t.subtasks.rows[id], op.Starting? && op.id == id)
    {}
  }

  lemma CancelBeginsNothing(c: Config, s: Store, taskId: string, now: int)
    requires Stopped(c, s)
    ensures NothingBegun(c, s, Agent.CancelTask(s, taskId, now))
  {
    TasksStayCanceled(c, s, s.tasks[c.taskId].task, taskId, now);
    if Agent.CancelTask(s, taskId, now) != s {
      WriteBeginsNothing(c, s, Agent.CancelTask(s, taskId, now), Subtasks.CancelingPending(taskId, now));
    }
  }

  lemma HostSaveBeginsNothing(c: Config, s: Store, task: Tasks.Task, now: int)
    requires Stopped(c, s)
    ensures NothingBegun(c, s, Agent.HostSave(s, task, now))
  {
    TasksStayCanceled(c, s, task, task.id, now);
    var t := Agent.HostSave(s, task, now);
    if t.subtasks != s.subtasks {
      WriteBeginsNothing(c, s, t, Subtasks.CancelingPending(task.id, now));
    }
  }

  /** The store that an action leaves. */
  lemma NextStore(c: Config, w: World, a: Action)
    requires Enabled(c, w, a)
    ensures
      var s, t := w.store, Next(c, w, a).store;
      match a
      case Start(call, o) => t == Opening(c, s, call, o).store
      case Continue(n, o) => n in w.bodies && t == Onwards(c, s, n, w.bodies[n].body, o).store
      case CancelTask(taskId, now) => t == Agent.CancelTask(s, taskId, now)
      case HostSave(task, now) => t == Agent.HostSave(s, task, now)
      case Resolve(id, now) => t == ResolveRunning(s, id, now)
      case Elsewhere(op) => t == s.(subtasks := Subtasks.Apply(s.subtasks, op, c.max))
      case Accept(_, _, _, _) => true
      case _ => t == s
  {
    hide Opening, Onwards, Agent.CancelTask, Agent.HostSave, ResolveRunning, Subtasks.Apply, Calls, Legal;
  }

  /** Any single action on a canceled Task leaves it canceled and begins nothing for it. */
  lemma CanceledStep(c: Config, w: World, a: Action)
    requires Inv(c, w) && Enabled(c, w, a) && Tasks.IsCanceled(w.store.tasks, c.taskId)
    ensures NothingBegun(c, w.store, Next(c, w, a).store)
  {
    hide Inv, Enabled, Next, Opening, Onwards, Agent.HostSave, Agent.CancelTask, Stopped, NothingBegun, Tasks.IsCanceled;
    var s := w.store;
    NextStore(c, w, a);
    CanceledIsStopped(c, w);
    StoppedStill(c, s);
    match a
    case Start(call, o) => CanceledOpening(c, w, call, o);
    case Continue(n, o) => CanceledSegment(c, w, n, o);
    case CancelTask(taskId, now) => CancelBeginsNothing(c, s, taskId, now);
    case HostSave(task, now) => HostSaveBeginsNothing(c, s, task, now);
    case Resolve(id, now) => ResolveBeginsNothing(c, s, id, now);
    case Elsewhere(op) => ElsewhereBeginsNothing(c, w, op);
    case Accept(_, _, _, _) => AcceptBeginsNothing(c, w, a);
    case _ =>
  }

  lemma AcceptBeginsNothing(c: Config, w: World, a: Action)
    requires Stopped(c, w.store) && a.Accept?
    ensures NothingBegun(c, w.store, Next(c, w, a).store)
  {}

  lemma ResolveBeginsNothing(c: Config, s: Store, id: nat, now: int)
    requires Stopped(c, s)
    ensures NothingBegun(c, s, ResolveRunning(s, id, now))
  {
    hide NothingBegun, Stopped;
    StoppedStill(c, s);
    WriteBeginsNothing(c, s, ResolveRunning(s, id, now), Subtasks.CancelingRunning(id, now));
  }

  lemma ElsewhereBeginsNothing(c: Config, w: World, op: Subtasks.Op)
    requires Stopped(c, w.store) && Enabled(c, w, Elsewhere(op))
    ensures
      var t := w.store.(subtasks := Subtasks.Apply(w.store.subtasks, op, c.max));
      NothingBegun(c, w.store, t)
  {
    var s := w.store;
    hide Subtasks.Apply, Subtasks.Valid;
    if op.Creating? {
      CreatingElsewhere(c, s, op);
    } else {
      hide NothingBegun;
      WriteBeginsNothing(c, s, s.(subtasks := Subtasks.Apply(s.subtasks, op, c.max)), op);
    }
  }

  lemma BranchOfCall(c: Config, w: World, call: Call)
    requires Inv(c, w) && call in Calls(c, w.journal) && call.name.Execute?
    ensures call.name.id in w.store.subtasks.rows && w.store.subtasks.rows[call.name.id].taskId == c.taskId
  {
    CallsAreSourced(c, w.journal, call);
    var round :| Replay.BranchOf(w.journal, round, call.name.id);
    BranchHasRow(c, w, call.name.id, round);
  }

  lemma CanceledOpening(c: Config, w: World, call: Call, o: Oracle)
    requires Inv(c, w) && Enabled(c, w, Start(call, o)) && Tasks.IsCanceled(w.store.tasks, c.taskId)
    ensures NothingBegun(c, w.store, Opening(c, w.store, call, o).store)
  {
    hide Inv, Calls, Stopped, NothingBegun, Tasks.IsCanceled;
    var s := w.store;
    CanceledIsStopped(c, w);
    hide BeginWork, EnterTurn, ScanRound, CancelPendingOf, PrepareChunk, FailSubtask, SaveTerminal;
    StoppedStill(c, s);
    match call.name
    case Working => WorkBeginsNothing(c, s, o.now);
    case Complete(_) =>
      var outcome := if call.input.Delivering? then call.input.outcome else BudgetFailure;
      SaveBeginsNothing(c, s, TerminalTask(c, outcome, o.words, o.now), o.now);
    case CancelRound(_) => CancelPendingBeginsNothing(c, s, o.now);
    case Execute(id, _) =>
      BranchOfCall(c, w, call);
      PreparingBeginsNothing(c, s, id, o.resolved, o.now);
    case FailBranch(id) => FailingBeginsNothing(c, s, id, o.words, o.now);
    case Scan(_) => ScanWritesNothing(s, c.taskId, call.name.round);
    case Turn(_) => CanceledTurnWritesNothing(c, s, call.name.round);
    case _ =>
  }

  lemma WorkBeginsNothing(c: Config, s: Store, now: int)
    requires Stopped(c, s)
    ensures NothingBegun(c, s, BeginWork(s, c.taskId, now).store)
  {
    assert Tasks.WorkingRows(s.tasks, c.taskId, now) == s.tasks;
    hide Stopped, NothingBegun;
    StoppedStill(c, s);
  }

  /** A canceled row refuses the delivery. */
  lemma SaveBeginsNothing(c: Config, s: Store, task: Tasks.Task, now: int)
    requires Stopped(c, s) && task.id == c.taskId && !task.state.Canceled?
    ensures NothingBegun(c, s, SaveTerminal(s, task, now).store)
  {
    assert Tasks.SavedRows(s.tasks, task, now) == s.tasks;
    hide Stopped, NothingBegun;
    StoppedStill(c, s);
  }

  lemma CancelPendingBeginsNothing(c: Config, s: Store, now: int)
    requires Stopped(c, s)
    ensures NothingBegun(c, s, CancelPendingOf(s, c.taskId, now).store)
  {
    hide Stopped, NothingBegun, Subtasks.CancelPending;
    StoppedStill(c, s);
    WriteBeginsNothing(c, s, CancelPendingOf(s, c.taskId, now).store, Subtasks.CancelingPending(c.taskId, now));
  }

  lemma FailingBeginsNothing(c: Config, s: Store, id: nat, words: string, now: int)
    requires Stopped(c, s)
    ensures NothingBegun(c, s, FailSubtask(s, id, words, now).store)
  {
    hide Stopped, NothingBegun, Subtasks.Fail;
    StoppedStill(c, s);
    WriteBeginsNothing(c, s, FailSubtask(s, id, words, now).store, Subtasks.Failing(id, words, now));
  }

  lemma ScanWritesNothing(s: Store, taskId: string, round: nat)
    ensures ScanRound(s, taskId, round).store == s
  {}

  lemma CanceledTurnWritesNothing(c: Config, s: Store, round: nat)
    requires Tasks.IsCanceled(s.tasks, c.taskId)
    ensures EnterTurn(s, c.taskId, round, c.text, c.recovered).store == s
  {}

  lemma StoppedStill(c: Config, s: Store)
    requires Stopped(c, s)
    ensures Tasks.Keyed(s.tasks) && Tasks.IsCanceled(s.tasks, c.taskId)
    ensures forall t: Store :: t.tasks == s.tasks && t.subtasks == s.subtasks ==> NothingBegun(c, s, t)
  {}

  lemma PreparingBeginsNothing(c: Config, s: Store, id: nat, resolved: Resolved, now: int)
    requires Stopped(c, s) && id in s.subtasks.rows && s.subtasks.rows[id].taskId == c.taskId
    ensures NothingBegun(c, s, PrepareChunk(s, id, resolved, now).store)
  {
    if Unfinished(s, id) {
      WriteBeginsNothing(c, s, PrepareChunk(s, id, resolved, now).store, Subtasks.CancelingRunning(id, now));
    }
  }

  lemma CanceledSegment(c: Config, w: World, n: StepName, o: Oracle)
    requires Inv(c, w) && Enabled(c, w, Continue(n, o)) && Tasks.IsCanceled(w.store.tasks, c.taskId)
    ensures NothingBegun(c, w.store, Onwards(c, w.store, n, w.bodies[n].body, o).store)
  {
    FlightKnown(c, w, n);
    CanceledIsStopped(c, w);
    hide Inv, Legal, Calls, Stopped, NothingBegun;
    var s, body := w.store, w.bodies[n].body;
    StoppedStill(c, s);
    if n.Execute? {
      hide ReceiveChunk, PersistResult;
      if body.Executing? {
        ReceivingBeginsNothing(c, s, n.id, body.taskId, o.chunk, o.now);
      } else {
        PersistingBeginsNothing(c, s, n.id, body.result, o.now);
      }
    } else {
      CanceledTurnGoesNoFurther(c, s, n, body, o);
    }
  }

  lemma ReceivingBeginsNothing(c: Config, s: Store, id: nat, taskId: string, chunk: Chunk, now: int)
    requires Stopped(c, s) && taskId == c.taskId
    ensures NothingBegun(c, s, ReceiveChunk(s, id, taskId, chunk, now).store)
  {
    WriteBeginsNothing(c, s, ReceiveChunk(s, id, taskId, chunk, now).store, Subtasks.CancelingRunning(id, now));
  }

  lemma PersistingBeginsNothing(c: Config, s: Store, id: nat, result: ChildResult, now: int)
    requires Stopped(c, s)
    ensures NothingBegun(c, s, PersistResult(s, id, result, now).store)
  {
    var op :=
      if result.ChildCompleted? && Subtasks.Usable(result.parts) then Subtasks.Completing(id, result.parts, now)
      else Subtasks.Failing(id, if result.ChildFailed? then result.error else MALFORMED, now);
    WriteBeginsNothing(c, s, PersistResult(s, id, result, now).store, op);
  }

  /** Under a canceled Task a turn that the model has answered appends its message, and no row. */
  lemma CanceledTurnGoesNoFurther(c: Config, s: Store, n: StepName, body: Body, o: Oracle)
    requires Tasks.IsCanceled(s.tasks, c.taskId) && !n.Execute?
    ensures Onwards(c, s, n, body, o).store.tasks == s.tasks && Onwards(c, s, n, body, o).store.subtasks == s.subtasks
  {}

  /** Once canceled, a Task stays canceled through any run, and no subtask of it is created, claimed or left pending. */
  lemma {:induction false} CanceledForGood(c: Config, w: World, actions: seq<Action>)
    requires Inv(c, w) && AllEnabled(c, w, actions) && Tasks.IsCanceled(w.store.tasks, c.taskId)
    ensures NothingBegun(c, w.store, After(c, w, actions).store)
    decreases actions
  {
    if actions == [] {
      assert Idle(c, w.store);
    } else {
      hide Inv, Enabled, Next;
      CanceledStep(c, w, actions[0]);
      StepKeepsInv(c, w, actions[0]);
      CanceledForGood(c, Next(c, w, actions[0]), actions[1..]);
    }
  }

  /** The same from the Task's beginning: whenever it was canceled, everything after found and left it idle. */
  lemma CanceledTaskStaysIdle(c: Config, w: World, before: seq<Action>, after: seq<Action>)
    requires Initial(c, w) && AllEnabled(c, w, before + after)
    requires Tasks.IsCanceled(After(c, w, before).store.tasks, c.taskId)
    ensures NothingBegun(c, After(c, w, before).store, After(c, w, before + after).store)
  {
    hide Inv, Enabled, Next, NothingBegun;
    InitiallyInv(c, w);
    RunsCompose(c, w, before, after);
    RunsKeepInv(c, w, before);
    CanceledForGood(c, After(c, w, before), after);
  }

  // ---- what a Task is metered, in every state ----------------------------------------------------------------

  lemma EveryRunIsMetered(c: Config, w: World, actions: seq<Action>)
    requires Initial(c, w) && AllEnabled(c, w, actions)
    ensures
      var j := After(c, w, actions).journal;
      && Run(j, c.limits).turns <= c.limits.maxTurns + 3
      && ((forall r :: !Replay.FreeRound(j, r)) ==> Replay.TAIL !in Run(j, c.limits).calls)
  {
    InitiallyInv(c, w);
    RunsKeepInv(c, w, actions);
    var j := After(c, w, actions).journal;
    assert Replay.TurnsPermitted(j, Orchestrate(j, c.limits).calls);
    Replay.TaskIsMetered(j, c.limits);
    if forall r :: !Replay.FreeRound(j, r) {
      Replay.TailIsUnreachable(j, c.limits);
    }
  }
}
