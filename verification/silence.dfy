/**
 * The Workflow that ends without a callback: which runs do, and that none of them
 * leaves the Task's row open.
 */
module Silence {
  import opened Wrappers
  import opened Workflow
  import opened Agent
  import opened Protocol
  import Callbacks
  import Replay
  import Safety
  import Subtasks
  import Tasks

  // ---- an ended Workflow leaves a terminal row ---------------------------------------------------

  ghost predicate Closed(c: Config, s: Store) {
    c.taskId in s.tasks && Tasks.Terminal(s.tasks[c.taskId].task.state)
  }

  /** A delivery's save was refused, recorded or not. */
  ghost predicate Refused(w: World, a: bool) {
    || (Complete(a) in w.journal && w.journal[Complete(a)] == Returned(Saved(None)))
    || (Complete(a) in w.bodies && w.bodies[Complete(a)].body == Finished(Saved(None)))
  }

  /** A refusal is new only where a save starts. */
  lemma RefusalsMove(c: Config, w: World, a: Action, b: bool)
    requires Enabled(c, w, a) && Refused(Next(c, w, a), b)
    ensures Refused(w, b) || (a.Start? && a.call.name == Complete(b) && Opening(c, w.store, a.call, a.oracle).body == Some(Finished(Saved(None))))
  {
    hide Opening, Agent.HostSave, Agent.CancelTask, Subtasks.Apply, Calls, Legal;
    if a.Continue? {
      Callbacks.OnwardsKeepsTasks(c, w.store, a.name, w.bodies[a.name].body, a.oracle);
    }
    hide Onwards;
  }

  /** A delivery's save leaves the row terminal, whether it applies or not. */
  lemma SaveCloses(c: Config, w: World, call: Call, o: Oracle)
    requires call.name.Complete?
    ensures Closed(c, Next(c, w, Start(call, o)).store)
  {}

  lemma CanceledIsClosed(c: Config, w: World, a: Action)
    requires Inv(c, w) && Enabled(c, w, a) && Tasks.IsCanceled(w.store.tasks, c.taskId)
    ensures Tasks.IsCanceled(Next(c, w, a).store.tasks, c.taskId)
  {
    hide Inv, Enabled, Next;
    Safety.CanceledStep(c, w, a);
  }

  lemma ClosedStays(c: Config, w: World, a: Action)
    requires Inv(c, w) && Closed(c, w.store) && Enabled(c, w, a) && Callbacks.Tame(c, w, a)
    ensures Closed(c, Next(c, w, a).store)
  {
    hide Inv, Enabled, Next, Callbacks.Tame;
    var row := w.store.tasks[c.taskId].task;
    if row.state.Canceled? {
      CanceledIsClosed(c, w, a);
    } else if a.Start? && a.call.name.Complete? {
      SaveCloses(c, w, a.call, a.oracle);
    } else {
      assert Callbacks.Held(c, w.store, row);
      Callbacks.RowStays(c, w, a);
      assert Callbacks.Held(c, Next(c, w, a).store, row);
    }
  }

  ghost predicate RefusedClosed(c: Config, w: World) {
    forall a :: Refused(w, a) ==> Closed(c, w.store)
  }

  lemma StepKeepsRefusedClosed(c: Config, w: World, a: Action)
    requires Inv(c, w) && RefusedClosed(c, w) && Enabled(c, w, a) && Callbacks.Tame(c, w, a)
    ensures RefusedClosed(c, Next(c, w, a))
  {
    hide Inv, Enabled, Next, Callbacks.Tame, Closed, Refused, Opening;
    var v := Next(c, w, a);
    forall b | Refused(v, b)
      ensures Closed(c, v.store)
    {
      RefusalsMove(c, w, a, b);
      if Refused(w, b) {
        ClosedStays(c, w, a);
      } else {
        SaveCloses(c, w, a.call, a.oracle);
      }
    }
  }

  lemma {:induction false} RunsKeepRefusedClosed(c: Config, w: World, actions: seq<Action>)
    requires Inv(c, w) && RefusedClosed(c, w) && Safety.AllEnabled(c, w, actions) && Callbacks.AllTame(c, w, actions)
    ensures RefusedClosed(c, Safety.After(c, w, actions))
    decreases actions
  {
    hide Inv, RefusedClosed, Enabled, Next, Callbacks.Tame;
    if actions != [] {
      StepKeepsInv(c, w, actions[0]);
      StepKeepsRefusedClosed(c, w, actions[0]);
      RunsKeepRefusedClosed(c, Next(c, w, actions[0]), actions[1..]);
    }
  }

  /** A recorded end that is not a cancellation is an end of a delivery. */
  lemma EndIsKnown(c: Config, w: World) returns (a: bool)
    requires Inv(c, w) && Run(w.journal, c.limits).end == End.Ended
    ensures Tasks.IsCanceled(w.store.tasks, c.taskId) || Replay.DeliveryOver(w.journal, a)
  {
    var j := w.journal;
    hide Inv, Workflow.Run;
    Replay.RunExplained(j, c.limits);
    a := true;
    if Working in j && j[Working] == Returned(Flag(false)) {
      Safety.RecordKnown(c, w, Working);
    } else if r :| Replay.CanceledAt(j, r) {
      Safety.RecordKnown(c, w, Turn(r));
    } else if r :| Replay.ScannedAt(j, r) && j[Scan(r)].value.canceled {
      Safety.RecordKnown(c, w, Scan(r));
    } else {
      a :| Replay.DeliveryOver(j, a);
    }
  }

  /** However a Workflow ends without an error, told or not, the Task's row is terminal. */
  lemma EndedMeansClosed(c: Config, w: World, actions: seq<Action>)
    requires Safety.Initial(c, w) && Safety.AllEnabled(c, w, actions) && Callbacks.AllTame(c, w, actions)
    requires Run(Safety.After(c, w, actions).journal, c.limits).end == End.Ended
    ensures Closed(c, Safety.After(c, w, actions).store)
  {
    Safety.InitiallyInv(c, w);
    assert Callbacks.Delivered(c, w) && RefusedClosed(c, w);
    hide Inv, Workflow.Run;
    Callbacks.RunsKeepDelivered(c, w, actions);
    RunsKeepRefusedClosed(c, w, actions);
    var v := Safety.After(c, w, actions);
    var a := EndIsKnown(c, v);
    if Refused(v, a) {
      assert Closed(c, v.store);
    } else if t :| Replay.SavedBy(v.journal, a, t) {
      assert Callbacks.Held(c, v.store, t);
    }
  }

  // ---- what a refused save met -------------------------------------------------------------------------

  /** A host write that would decide the Task itself: to a terminal state that is not a cancellation. */
  predicate Decides(c: Config, a: Action) {
    a.HostSave? && a.task.id == c.taskId && Tasks.Terminal(a.task.state) && !a.task.state.Canceled?
  }

  predicate NoneDecides(c: Config, actions: seq<Action>) {
    forall i :: 0 <= i < |actions| ==> !Decides(c, actions[i])
  }

  function StateOf(outcome: Outcome): Tasks.TaskState {
    if outcome.Answer? then Tasks.Completed else Tasks.Failed
  }

  ghost predicate Asks(c: Config, j: Journal, call: Call, state: Tasks.TaskState) {
    call in Calls(c, j) && call.name.Complete? && call.input.Delivering? && StateOf(call.input.outcome) == state
  }

  /** A terminal row that is no cancellation is in the state of a delivery the body asks for. */
  ghost predicate Decided(c: Config, w: World) {
    forall t :: Callbacks.Held(c, w.store, t) ==> exists call :: Asks(c, w.journal, call, t.state)
  }

  /** The ordinary delivery's save ran out of retries. */
  predicate OrdinaryGaveUp(j: Journal) {
    Complete(false) in j && j[Complete(false)].Threw?
  }

  ghost predicate RefusedWhy(c: Config, w: World) {
    forall a :: Refused(w, a) ==> Tasks.IsCanceled(w.store.tasks, c.taskId) || (a && OrdinaryGaveUp(w.journal))
  }

  lemma JournalExtends(c: Config, w: World, a: Action)
    requires Inv(c, w) && Enabled(c, w, a)
    ensures Replay.Extends(w.journal, Next(c, w, a).journal)
  {
    hide Inv, BodyFact;
    if a.Record? {
      FlightKnown(c, w, a.name);
    }
    hide BodyFact, Charged, Opening, Onwards, Agent.HostSave, Agent.CancelTask, Subtasks.Apply, Calls;
  }

  lemma AskedStays(c: Config, w: World, a: Action, call: Call, state: Tasks.TaskState)
    requires Inv(c, w) && Enabled(c, w, a) && Asks(c, w.journal, call, state)
    ensures Asks(c, Next(c, w, a).journal, call, state)
  {
    JournalExtends(c, w, a);
    CallsGrow(c, w.journal, Next(c, w, a).journal);
  }

  lemma OpeningDecidesNothing(c: Config, s: Store, call: Call, o: Oracle, t: Tasks.Task)
    requires Tasks.Keyed(s.tasks) && !call.name.Complete? && Callbacks.Held(c, Opening(c, s, call, o).store, t)
    ensures Callbacks.Held(c, s, t)
  {
    if call.name.Working? {
      Tasks.WritersTouchOneRow(s.tasks, t, c.taskId, o.now);
    }
  }

  lemma HostDecidesNothing(c: Config, s: Store, task: Tasks.Task, taskId: string, now: int, t: Tasks.Task)
    requires Tasks.Keyed(s.tasks)
    requires task.id == c.taskId ==> !Tasks.Terminal(task.state) || task.state.Canceled?
    ensures Callbacks.Held(c, Agent.HostSave(s, task, now), t) ==> Callbacks.Held(c, s, t)
    ensures Callbacks.Held(c, Agent.CancelTask(s, taskId, now), t) ==> Callbacks.Held(c, s, t)
  {
    Tasks.WritersTouchOneRow(s.tasks, task, taskId, now);
  }

  /** Only a delivery's save decides the Task. */
  lemma DecidedByDelivery(c: Config, w: World, a: Action, t: Tasks.Task)
    requires Tasks.Keyed(w.store.tasks) && Enabled(c, w, a) && !Decides(c, a) && !(a.Start? && a.call.name.Complete?)
    requires Callbacks.Held(c, Next(c, w, a).store, t)
    ensures Callbacks.Held(c, w.store, t)
  {
    Safety.NextStore(c, w, a);
    hide Enabled, Next, Opening, Onwards, Agent.HostSave, Agent.CancelTask, Subtasks.Apply;
    match a
    case Start(call, o) => OpeningDecidesNothing(c, w.store, call, o, t);
    case Continue(n, o) => Callbacks.OnwardsKeepsTasks(c, w.store, n, w.bodies[n].body, o);
    case HostSave(task, now) => HostDecidesNothing(c, w.store, task, task.id, now, t);
    case CancelTask(taskId, now) => HostDecidesNothing(c, w.store, t.(state := Tasks.Submitted), taskId, now, t);
    case Accept(_, _, _, _) => AcceptDecidesNothing(c, w, a, t);
    case _ =>
  }

  lemma AcceptDecidesNothing(c: Config, w: World, a: Action, t: Tasks.Task)
    requires a.Accept? && Callbacks.Held(c, Next(c, w, a).store, t)
    ensures Callbacks.Held(c, w.store, t)
  {}

  /** What a delivery's save leaves as the row: its own Task, or what was there. */
  lemma SaveLeaves(c: Config, w: World, call: Call, o: Oracle, t: Tasks.Task)
    requires call.name.Complete? && call.input.Delivering?
    requires Callbacks.Held(c, Next(c, w, Start(call, o)).store, t)
    ensures t.state == StateOf(call.input.outcome) || Callbacks.Held(c, w.store, t)
  {}

  lemma StepKeepsDecided(c: Config, w: World, a: Action)
    requires Inv(c, w) && Decided(c, w) && Enabled(c, w, a) && !Decides(c, a)
    ensures Decided(c, Next(c, w, a))
  {
    Callbacks.InvKeyed(c, w);
    hide Inv, Enabled, Next, Callbacks.Held, Decides, Asks;
    var v := Next(c, w, a);
    forall t | Callbacks.Held(c, v.store, t)
      ensures exists call :: Asks(c, v.journal, call, t.state)
    {
      if a.Start? && a.call.name.Complete? {
        StartedIsAsked(c, w, a.call, a.oracle);
        SaveLeaves(c, w, a.call, a.oracle, t);
        assert Asks(c, w.journal, a.call, StateOf(a.call.input.outcome));
      } else {
        DecidedByDelivery(c, w, a, t);
      }
      var call :| Asks(c, w.journal, call, t.state);
      AskedStays(c, w, a, call, t.state);
    }
  }

  lemma StartedIsAsked(c: Config, w: World, call: Call, o: Oracle)
    requires Enabled(c, w, Start(call, o)) && call.name.Complete?
    ensures call.input.Delivering? && Asks(c, w.journal, call, StateOf(call.input.outcome))
  {
    CallsAreSourced(c, w.journal, call);
  }

  /** The recovery delivers only behind a save that the ordinary delivery never got recorded. */
  lemma RecoveryMeansGaveUp(c: Config, w: World, recovery: Call, ordinary: Call)
    requires Inv(c, w) && recovery in Calls(c, w.journal) && recovery.name == Complete(true)
    requires ordinary in Calls(c, w.journal) && ordinary.name == Complete(false)
    ensures OrdinaryGaveUp(w.journal)
  {
    var j := w.journal;
    if Complete(false) !in j {
      Callbacks.OrdinaryCompleteIsWaiting(c, j, ordinary);
    } else if j[Complete(false)].Returned? {
      Safety.RecordKnown(c, w, Complete(false));
      SavedMeansNoRecovery(c, j, recovery, ordinary);
    }
  }

  lemma SavedMeansNoRecovery(c: Config, j: Journal, recovery: Call, ordinary: Call)
    requires recovery in Calls(c, j) && recovery.name == Complete(true)
    requires ordinary in Calls(c, j) && ordinary.name == Complete(false)
    ensures !(Complete(false) in j && j[Complete(false)].Returned? && j[Complete(false)].value.Saved?)
  {
    hide Workflow.Orchestrate, Workflow.Deliver;
    Replay.RecoveryNames(j);
    Replay.OrchestrationEnds(j, c.limits);
    Replay.OrchestrationPlaced(j, c.limits);
    assert ordinary in Orchestrate(j, c.limits).calls;
    assert Replay.Names(Orchestrate(j, c.limits).calls, Complete(false));
  }

  /** A save that is refused met a cancellation, or what the ordinary delivery wrote without getting it recorded. */
  lemma RefusalMet(c: Config, w: World, call: Call, o: Oracle)
    requires Inv(c, w) && Decided(c, w) && Enabled(c, w, Start(call, o)) && call.name.Complete?
    requires Opening(c, w.store, call, o).body == Some(Finished(Saved(None)))
    ensures Tasks.IsCanceled(w.store.tasks, c.taskId) || (call.name.abandoned && OrdinaryGaveUp(w.journal))
  {
    StartedIsAsked(c, w, call, o);
    var row := RefusingRow(c, w.store, call, o);
    if !row.state.Canceled? {
      var other :| Asks(c, w.journal, other, row.state);
      hide Inv, Calls, Opening;
      if other.name == call.name {
        OneCall(c, w.journal, call, other);
      } else if call.name.abandoned {
        RecoveryMeansGaveUp(c, w, call, other);
      } else {
        Callbacks.OrdinaryCompleteIsWaiting(c, w.journal, call);
      }
    }
  }

  lemma RefusingRow(c: Config, s: Store, call: Call, o: Oracle) returns (row: Tasks.Task)
    requires call.name.Complete? && call.input.Delivering?
    requires Opening(c, s, call, o).body == Some(Finished(Saved(None)))
    ensures Tasks.TaskAt(s.tasks, c.taskId) == Some(row)
    ensures row.state.Canceled? || (Callbacks.Held(c, s, row) && row.state != StateOf(call.input.outcome))
  {
    row := s.tasks[c.taskId].task;
  }

  lemma StepKeepsRefusedWhy(c: Config, w: World, a: Action)
    requires Inv(c, w) && Decided(c, w) && RefusedWhy(c, w) && Enabled(c, w, a)
    ensures RefusedWhy(c, Next(c, w, a))
  {
    var v := Next(c, w, a);
    JournalExtends(c, w, a);
    if Tasks.IsCanceled(w.store.tasks, c.taskId) {
      CanceledIsClosed(c, w, a);
    }
    hide Inv, Next, Refused, Opening, Decided;
    forall b | Refused(v, b)
      ensures Tasks.IsCanceled(v.store.tasks, c.taskId) || (b && OrdinaryGaveUp(v.journal))
    {
      RefusalsMove(c, w, a, b);
      if !Refused(w, b) {
        RefusalMet(c, w, a.call, a.oracle);
      }
    }
  }

  lemma {:induction false} RunsKeepRefusedWhy(c: Config, w: World, actions: seq<Action>)
    requires Inv(c, w) && Decided(c, w) && RefusedWhy(c, w) && Safety.AllEnabled(c, w, actions) && NoneDecides(c, actions)
    ensures RefusedWhy(c, Safety.After(c, w, actions))
    decreases actions
  {
    hide Inv, Decided, RefusedWhy, Enabled, Next, Decides;
    if actions != [] {
      StepKeepsInv(c, w, actions[0]);
      StepKeepsDecided(c, w, actions[0]);
      StepKeepsRefusedWhy(c, w, actions[0]);
      RunsKeepRefusedWhy(c, Next(c, w, actions[0]), actions[1..]);
    }
  }

  // ---- the silent runs ------------------------------------------------------------------------------------

  ghost predicate RefusalRecorded(j: Journal, a: bool) {
    Complete(a) in j && j[Complete(a)] == Returned(Saved(None))
  }

  /** A refused delivery and a posted one exclude each other. */
  lemma RefusedIsNotPosted(c: Config, w: World, a: bool)
    requires Inv(c, w) && RefusalRecorded(w.journal, a)
    ensures w.posted == []
  {
    if w.posted != [] {
      var j, t := w.journal, w.posted[0];
      assert Replay.SavedBy(j, false, t) || Replay.SavedBy(j, true, t);
      Asked(c, w, Complete(true));
      Asked(c, w, Complete(false));
      var recovery :| recovery in Calls(c, j) && recovery.name == Complete(true);
      var ordinary :| ordinary in Calls(c, j) && ordinary.name == Complete(false);
      SavedMeansNoRecovery(c, j, recovery, ordinary);
    }
  }

  lemma Asked(c: Config, w: World, n: StepName)
    requires Inv(c, w)
    ensures n in w.journal ==> Replay.Names(Calls(c, w.journal), n)
  {}

  /**
   * In every run whose host writes do not overwrite the Task's terminal row, an
   * ended Workflow is silent exactly when the Task was canceled or a delivery's
   * save was refused.
   */
  lemma SilentExactlyWhenRefused(c: Config, w: World, actions: seq<Action>)
    requires Safety.Initial(c, w) && Safety.AllEnabled(c, w, actions) && Callbacks.AllTame(c, w, actions)
    requires Run(Safety.After(c, w, actions).journal, c.limits).end == End.Ended
    ensures
      var v := Safety.After(c, w, actions);
      v.posted == [] <==> Tasks.IsCanceled(v.store.tasks, c.taskId) || exists a :: RefusalRecorded(v.journal, a)
  {
    Safety.InitiallyInv(c, w);
    Safety.RunsKeepInv(c, w, actions);
    var v := Safety.After(c, w, actions);
    hide Inv, Workflow.Run, Safety.Initial;
    Callbacks.EndedMeansTold(c, w, actions);
    forall a | Complete(a) in v.journal && v.journal[Complete(a)] == Returned(Saved(None))
      ensures RefusalRecorded(v.journal, a)
    {}
    if a :| RefusalRecorded(v.journal, a) {
      RefusedIsNotPosted(c, v, a);
    } else if Tasks.IsCanceled(v.store.tasks, c.taskId) {
      Callbacks.CanceledTaskIsNeverCalledBack(c, w, actions);
    }
  }

  /**
   * Where the host leaves the deciding to the Workflow, a refusal means one of two
   * things: the Task was canceled, or the ordinary save was applied by an attempt
   * that never got recorded, ran out of retries, and stood in the recovery's way.
   * The second is the one way in which a decided Task ends untold.
   */
  lemma EndedIsSilentExactlyWhen(c: Config, w: World, actions: seq<Action>)
    requires Safety.Initial(c, w) && (forall t :: !Callbacks.Held(c, w.store, t))
    requires Safety.AllEnabled(c, w, actions) && Callbacks.AllTame(c, w, actions) && NoneDecides(c, actions)
    requires Run(Safety.After(c, w, actions).journal, c.limits).end == End.Ended
    ensures
      var v := Safety.After(c, w, actions);
      v.posted == [] <==>
        || Tasks.IsCanceled(v.store.tasks, c.taskId)
        || (OrdinaryGaveUp(v.journal) && RefusalRecorded(v.journal, true))
  {
    Safety.InitiallyInv(c, w);
    assert Decided(c, w) && RefusedWhy(c, w);
    hide Inv, Workflow.Run, Safety.Initial, Decided;
    RunsKeepRefusedWhy(c, w, actions);
    SilentExactlyWhenRefused(c, w, actions);
    var v := Safety.After(c, w, actions);
    if a :| RefusalRecorded(v.journal, a) {
      assert Refused(v, a);
    }
  }
}
