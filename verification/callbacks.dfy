/**
 * Callbacks agree with the stored Task: what is posted is the row, then and ever
 * after, and nothing is posted for a canceled Task.
 */
module Callbacks {
  import opened Wrappers
  import opened Workflow
  import opened Agent
  import opened Protocol
  import History
  import Replay
  import Safety
  import Subtasks
  import Tasks

  /** The row is this terminal Task, and it is not a cancellation. */
  ghost predicate Held(c: Config, s: Store, t: Tasks.Task) {
    Tasks.TaskAt(s.tasks, c.taskId) == Some(t) && Tasks.Terminal(t.state) && !t.state.Canceled?
  }

  /** What a delivery saved, recorded or not, is still the row. */
  ghost predicate Delivered(c: Config, w: World) {
    && (forall a, t :: Replay.SavedBy(w.journal, a, t) ==> Held(c, w.store, t))
    && (forall a, t :: Complete(a) in w.bodies && w.bodies[Complete(a)].body == Finished(Saved(Some(t))) ==> Held(c, w.store, t))
  }

  /**
   * A host write over the Task's terminal row: a non-terminal Task, unless the row
   * is canceled, or other content in the same terminal state.
   */
  predicate Overwrites(c: Config, s: Store, task: Tasks.Task) {
    && task.id == c.taskId && c.taskId in s.tasks
    && var row := s.tasks[c.taskId].task;
       && Tasks.Terminal(row.state)
       && if Tasks.Terminal(task.state) then task.state == row.state && task != row else !row.state.Canceled?
  }

  ghost predicate Tame(c: Config, w: World, a: Action) {
    a.HostSave? ==> !Overwrites(c, w.store, a.task)
  }

  ghost predicate AllTame(c: Config, w: World, actions: seq<Action>)
    decreases actions
  {
    actions == [] || (Tame(c, w, actions[0]) && AllTame(c, Next(c, w, actions[0]), actions[1..]))
  }

  // ---- one delivery at a time ------------------------------------------------------------------

  lemma OrdinaryCompleteIsWaiting(c: Config, j: Journal, call: Call)
    requires call in Calls(c, j) && call.name == Complete(false) && Complete(false) !in j
    ensures forall other :: other in Calls(c, j) ==> other.name != Complete(true)
  {
    hide Workflow.Orchestrate, Workflow.Deliver;
    Replay.RecoveryNames(j);
    Replay.OrchestrationEnds(j, c.limits);
    Replay.OrchestrationPlaced(j, c.limits);
    assert call in Orchestrate(j, c.limits).calls;
    assert Replay.Names(Orchestrate(j, c.limits).calls, Complete(false));
  }

  lemma RecoveryMeansNothingSaved(c: Config, j: Journal, call: Call, t: Tasks.Task)
    requires call in Calls(c, j) && call.name == Complete(true)
    requires Replay.Names(Calls(c, j), Complete(false))
    ensures !Replay.SavedBy(j, false, t)
  {
    hide Workflow.Orchestrate, Workflow.Deliver;
    Replay.RecoveryNames(j);
    Replay.OrchestrationEnds(j, c.limits);
    Replay.OrchestrationPlaced(j, c.limits);
    var other :| other in Calls(c, j) && other.name == Complete(false);
    assert other in Orchestrate(j, c.limits).calls;
    assert Replay.Names(Orchestrate(j, c.limits).calls, Complete(false));
  }

  /** When a delivery's save starts, no other delivery has saved or is about to. */
  lemma SavingAlone(c: Config, w: World, call: Call, a: bool)
    requires Inv(c, w) && call in Calls(c, w.journal)
    requires call.name == Complete(a) && Complete(a) !in w.journal && Complete(a) !in w.bodies
    ensures forall b, t :: !Replay.SavedBy(w.journal, b, t)
    ensures forall b :: Complete(b) !in w.bodies
  {
    hide Calls;
    forall b, t | Replay.SavedBy(w.journal, b, t)
      ensures false
    {
      assert Replay.Names(Calls(c, w.journal), Complete(b));
      if a {
        RecoveryMeansNothingSaved(c, w.journal, call, t);
      } else {
        OrdinaryCompleteIsWaiting(c, w.journal, call);
      }
    }
    forall b | Complete(b) in w.bodies
      ensures false
    {
      FlightKnown(c, w, Complete(b));
      var other := Call(Complete(b), w.bodies[Complete(b)].input);
      OrdinaryCompleteIsWaiting(c, w.journal, if a then other else call);
    }
  }

  // ---- every tame action keeps the row ------------------------------------------------------------

  lemma RowKept(c: Config, w: World, v: World)
    requires Delivered(c, w)
    requires forall t :: Held(c, w.store, t) ==> Held(c, v.store, t)
    requires forall a, t :: Replay.SavedBy(v.journal, a, t) ==>
      Replay.SavedBy(w.journal, a, t) || (Complete(a) in w.bodies && w.bodies[Complete(a)].body == Finished(Saved(Some(t))))
    requires forall a :: Complete(a) in v.bodies ==> Complete(a) in w.bodies && v.bodies[Complete(a)].body == w.bodies[Complete(a)].body
    ensures Delivered(c, v)
  {
    hide Held, Replay.SavedBy;
  }

  lemma SavingKeepsDelivered(c: Config, w: World, call: Call, o: Oracle)
    requires Inv(c, w) && Enabled(c, w, Start(call, o)) && call.name.Complete?
    ensures Delivered(c, Next(c, w, Start(call, o)))
  {
    SavingAlone(c, w, call, call.name.abandoned);
    CallsAreSourced(c, w.journal, call);
    var task := TerminalTask(c, call.input.outcome, o.words, o.now);
    Tasks.WritersTouchOneRow(w.store.tasks, task, c.taskId, o.now);
    hide Inv, Calls;
    var v := Next(c, w, Start(call, o));
    forall a | Complete(a) in v.bodies
      ensures a == call.name.abandoned
    {}
  }

  /** The other first segments leave a held row alone. */
  lemma OpeningKeepsRow(c: Config, s: Store, call: Call, o: Oracle, t: Tasks.Task)
    requires Tasks.Keyed(s.tasks) && !call.name.Complete? && Held(c, s, t)
    ensures Held(c, Opening(c, s, call, o).store, t)
  {
    if call.name.Working? {
      Tasks.WritersTouchOneRow(s.tasks, t, c.taskId, o.now);
    }
  }

  lemma ExternalKeepsRow(c: Config, w: World, a: Action, t: Tasks.Task)
    requires Tasks.Keyed(w.store.tasks) && Held(c, w.store, t) && Tame(c, w, a) && !a.Start? && !a.Continue?
    ensures Held(c, Next(c, w, a).store, t)
  {
    var s := w.store;
    match a
    case CancelTask(taskId, now) => Tasks.WritersTouchOneRow(s.tasks, t, taskId, now);
    case HostSave(task, now) => Tasks.WritersTouchOneRow(s.tasks, task, task.id, now);
    case _ =>
  }

  lemma OnwardsKeepsTasks(c: Config, s: Store, n: StepName, body: Body, o: Oracle)
    ensures Onwards(c, s, n, body, o).store.tasks == s.tasks
    ensures n.Complete? ==> Onwards(c, s, n, body, o).body == None
  {}

  /** Unless a delivery's save starts, what deliveries saved was there before, in the journal or in a body. */
  lemma DeliveriesMove(c: Config, w: World, a: Action)
    requires Enabled(c, w, a) && !(a.Start? && a.call.name.Complete?)
    ensures
      var v := Next(c, w, a);
      && (forall b, t :: Replay.SavedBy(v.journal, b, t) ==>
            Replay.SavedBy(w.journal, b, t) || (Complete(b) in w.bodies && w.bodies[Complete(b)].body == Finished(Saved(Some(t)))))
      && (forall b :: Complete(b) in v.bodies ==> Complete(b) in w.bodies && v.bodies[Complete(b)].body == w.bodies[Complete(b)].body)
  {
    hide Opening, Agent.HostSave, Agent.CancelTask, Subtasks.Apply, Calls, Legal;
    if a.Continue? {
      OnwardsKeepsTasks(c, w.store, a.name, w.bodies[a.name].body, a.oracle);
    }
    hide Onwards;
  }

  lemma StepKeepsDelivered(c: Config, w: World, a: Action)
    requires Inv(c, w) && Delivered(c, w) && Enabled(c, w, a) && Tame(c, w, a)
    ensures Delivered(c, Next(c, w, a))
  {
    hide Inv, Enabled, Next, Delivered, Tame;
    if a.Start? && a.call.name.Complete? {
      SavingKeepsDelivered(c, w, a.call, a.oracle);
    } else {
      DeliveriesMove(c, w, a);
      RowStays(c, w, a);
      RowKept(c, w, Next(c, w, a));
    }
  }

  lemma RowStays(c: Config, w: World, a: Action)
    requires Inv(c, w) && Enabled(c, w, a) && Tame(c, w, a) && !(a.Start? && a.call.name.Complete?)
    ensures forall t :: Held(c, w.store, t) ==> Held(c, Next(c, w, a).store, t)
  {
    InvKeyed(c, w);
    hide Inv, Opening, Onwards, Agent.HostSave, Agent.CancelTask, Subtasks.Apply, Calls, Tame;
    forall t | Held(c, w.store, t)
      ensures Held(c, Next(c, w, a).store, t)
    {
      if a.Start? {
        OpeningKeepsRow(c, w.store, a.call, a.oracle, t);
      } else if a.Continue? {
        OnwardsKeepsTasks(c, w.store, a.name, w.bodies[a.name].body, a.oracle);
      } else {
        ExternalKeepsRow(c, w, a, t);
      }
    }
  }

  lemma {:induction false} RunsKeepDelivered(c: Config, w: World, actions: seq<Action>)
    requires Inv(c, w) && Delivered(c, w) && Safety.AllEnabled(c, w, actions) && AllTame(c, w, actions)
    ensures Inv(c, Safety.After(c, w, actions)) && Delivered(c, Safety.After(c, w, actions))
    ensures w.posted <= Safety.After(c, w, actions).posted
    decreases actions
  {
    hide Inv, Delivered, Enabled, Next, Tame;
    if actions != [] {
      StepKeepsInv(c, w, actions[0]);
      StepKeepsDelivered(c, w, actions[0]);
      PostedGrows(c, w, actions[0]);
      RunsKeepDelivered(c, Next(c, w, actions[0]), actions[1..]);
    }
  }

  lemma PostedGrows(c: Config, w: World, a: Action)
    ensures w.posted <= Next(c, w, a).posted
  {}

  lemma {:induction false} TameSplits(c: Config, w: World, first: seq<Action>, second: seq<Action>)
    requires AllTame(c, w, first + second)
    ensures AllTame(c, w, first) && AllTame(c, Safety.After(c, w, first), second)
    decreases first
  {
    hide Tame, Next;
    if first == [] {
      assert first + second == second;
    } else {
      assert (first + second)[1..] == first[1..] + second;
      TameSplits(c, Next(c, w, first[0]), first[1..], second);
    }
  }

  // ---- the promise -----------------------------------------------------------------------------------

  lemma PostedIsTheRow(c: Config, w: World, i: nat)
    requires Inv(c, w) && Delivered(c, w) && i < |w.posted|
    ensures Held(c, w.store, w.posted[i])
  {
    assert Replay.SavedBy(w.journal, false, w.posted[i]) || Replay.SavedBy(w.journal, true, w.posted[i]);
  }

  /**
   * In every run whose host writes do not overwrite the Task's terminal row, each
   * callback equals the stored row when it is posted and ever after. So all of a
   * Task's callbacks are one Task in one state.
   */
  lemma CallbackIsTheRowForGood(c: Config, w: World, before: seq<Action>, after: seq<Action>, i: nat)
    requires Safety.Initial(c, w)
    requires Safety.AllEnabled(c, w, before + after) && AllTame(c, w, before + after)
    requires i < |Safety.After(c, w, before).posted|
    ensures
      var posted := Safety.After(c, w, before).posted[i];
      && Held(c, Safety.After(c, w, before).store, posted)
      && Held(c, Safety.After(c, w, before + after).store, posted)
  {
    Safety.InitiallyInv(c, w);
    assert Delivered(c, w);
    hide Inv, Delivered, Held, Safety.Initial, Enabled, Next, Tame;
    Safety.RunsCompose(c, w, before, after);
    TameSplits(c, w, before, after);
    var middle := Safety.After(c, w, before);
    RunsKeepDelivered(c, w, before);
    RunsKeepDelivered(c, middle, after);
    PostedIsTheRow(c, middle, i);
    PostedIsTheRow(c, Safety.After(c, middle, after), i);
  }

  /** Nothing is posted for a Task that became canceled, before or after it did. */
  lemma CanceledTaskIsNeverCalledBack(c: Config, w: World, actions: seq<Action>)
    requires Safety.Initial(c, w)
    requires Safety.AllEnabled(c, w, actions) && AllTame(c, w, actions)
    requires Tasks.IsCanceled(Safety.After(c, w, actions).store.tasks, c.taskId)
    ensures Safety.After(c, w, actions).posted == []
  {
    Safety.InitiallyInv(c, w);
    assert Delivered(c, w);
    RunsKeepDelivered(c, w, actions);
    if Safety.After(c, w, actions).posted != [] {
      PostedIsTheRow(c, Safety.After(c, w, actions), 0);
    }
  }

  /** After a callback a host write agrees with it exactly when it does not overwrite the row. */
  lemma HostSaveAgreesExactlyWhenTame(c: Config, w: World, task: Tasks.Task, now: int)
    requires Inv(c, w) && Delivered(c, w) && |w.posted| > 0
    ensures Held(c, Next(c, w, HostSave(task, now)).store, w.posted[0]) <==> !Overwrites(c, w.store, task)
  {
    hide Inv, Delivered, Held, Overwrites, Agent.HostSave;
    InvKeyed(c, w);
    PostedIsTheRow(c, w, 0);
    HeldExactlyWhenTame(c, w.store, task, now, w.posted[0]);
  }

  lemma InvKeyed(c: Config, w: World)
    requires Inv(c, w)
    ensures Tasks.Keyed(w.store.tasks)
  {}

  lemma HeldExactlyWhenTame(c: Config, s: Store, task: Tasks.Task, now: int, t: Tasks.Task)
    requires Tasks.Keyed(s.tasks) && Held(c, s, t)
    ensures Held(c, Agent.HostSave(s, task, now), t) <==> !Overwrites(c, s, task)
  {
    Tasks.WritersTouchOneRow(s.tasks, task, task.id, now);
    assert Tasks.TaskAt(Agent.HostSave(s, task, now).tasks, c.taskId)
      == if task.id == c.taskId then Tasks.SaveOne(Some(t), task) else Some(t);
  }

  // ---- what a callback says ------------------------------------------------------------------------------

  /** A completed Task carries the reply that the Session stores. */
  ghost predicate Carries(c: Config, s: Store, t: Tasks.Task) {
    t.state.Completed? ==> t.message.Some? && Stores(s, Final(c), t.message.value)
  }

  ghost predicate Worded(c: Config, w: World) {
    && (forall a, t :: Replay.SavedBy(w.journal, a, t) ==> Carries(c, w.store, t))
    && (forall a, t :: Complete(a) in w.bodies && w.bodies[Complete(a)].body == Finished(Saved(Some(t))) ==> Carries(c, w.store, t))
  }

  /** What is stored under a key stays stored. */
  lemma SessionGrows(c: Config, w: World, a: Action, k: History.Key)
    requires k in w.store.session
    ensures k in Next(c, w, a).store.session && Next(c, w, a).store.session[k] == w.store.session[k]
  {
    hide Opening, Onwards, Agent.HostSave, Agent.CancelTask, Subtasks.Apply;
    match a
    case Start(call, o) => OpeningKeepsSession(c, w.store, call, o, k);
    case Continue(n, o) =>
      if n in w.bodies {
        OnwardsKeepsSession(c, w.store, n, w.bodies[n].body, o, k);
      }
    case CancelTask(_, _) => HostKeepsSession(w.store, a);
    case HostSave(_, _) => HostKeepsSession(w.store, a);
    case _ =>
  }

  lemma OpeningKeepsSession(c: Config, s: Store, call: Call, o: Oracle, k: History.Key)
    requires k in s.session
    ensures k in Opening(c, s, call, o).store.session && Opening(c, s, call, o).store.session[k] == s.session[k]
  {}

  lemma OnwardsKeepsSession(c: Config, s: Store, n: StepName, body: Body, o: Oracle, k: History.Key)
    requires k in s.session
    ensures k in Onwards(c, s, n, body, o).store.session && Onwards(c, s, n, body, o).store.session[k] == s.session[k]
  {}

  lemma HostKeepsSession(s: Store, a: Action)
    ensures a.CancelTask? ==> Agent.CancelTask(s, a.taskId, a.now).session == s.session
    ensures a.HostSave? ==> Agent.HostSave(s, a.task, a.now).session == s.session
  {}

  lemma TerminalCarries(c: Config, w: World, call: Call, o: Oracle)
    requires Inv(c, w) && call in Calls(c, w.journal) && call.name.Complete?
    ensures call.input.Delivering? && Carries(c, w.store, TerminalTask(c, call.input.outcome, o.words, o.now))
  {
    CallsAreSourced(c, w.journal, call);
    if call.input.outcome.Answer? {
      var r :| Turn(r) in w.journal && w.journal[Turn(r)].Returned? && w.journal[Turn(r)].value.Turned?
            && w.journal[Turn(r)].value.verdict == Replied(call.input.outcome.reply);
      Safety.RecordKnown(c, w, Turn(r));
    }
  }

  lemma WordsKept(c: Config, w: World, v: World)
    requires Worded(c, w)
    requires forall t :: Carries(c, w.store, t) ==> Carries(c, v.store, t)
    requires forall a, t :: Replay.SavedBy(v.journal, a, t) ==>
      Replay.SavedBy(w.journal, a, t) || (Complete(a) in w.bodies && w.bodies[Complete(a)].body == Finished(Saved(Some(t))))
    requires forall a, t :: Complete(a) in v.bodies && v.bodies[Complete(a)].body == Finished(Saved(Some(t))) ==>
      Carries(c, v.store, t) || (Complete(a) in w.bodies && v.bodies[Complete(a)].body == w.bodies[Complete(a)].body)
    ensures Worded(c, v)
  {
    hide Carries, Replay.SavedBy;
  }

  lemma CarryingKeeps(c: Config, w: World, a: Action)
    ensures forall t :: Carries(c, w.store, t) ==> Carries(c, Next(c, w, a).store, t)
  {
    hide Next;
    if Final(c) in w.store.session {
      SessionGrows(c, w, a, Final(c));
    }
  }

  /** A delivery's save puts one body in flight, and what it says it saved is the Task it built. */
  lemma SaveLands(c: Config, w: World, call: Call, o: Oracle)
    requires call.name.Complete? && call.input.Delivering?
    ensures
      var v, task := Next(c, w, Start(call, o)), TerminalTask(c, call.input.outcome, o.words, o.now);
      && v.journal == w.journal
      && (forall b :: Complete(b) in v.bodies && Complete(b) != call.name ==>
            Complete(b) in w.bodies && v.bodies[Complete(b)] == w.bodies[Complete(b)])
      && (forall t :: v.bodies[call.name].body == Finished(Saved(Some(t))) ==> t == task)
  {}

  lemma SavingKeepsWorded(c: Config, w: World, call: Call, o: Oracle)
    requires Inv(c, w) && Worded(c, w) && Enabled(c, w, Start(call, o)) && call.name.Complete?
    ensures Worded(c, Next(c, w, Start(call, o)))
  {
    assert call in Calls(c, w.journal);
    hide Inv, Carries, Calls, Next, Enabled;
    CarryingKeeps(c, w, Start(call, o));
    TerminalCarries(c, w, call, o);
    SaveLands(c, w, call, o);
    WordsKept(c, w, Next(c, w, Start(call, o)));
  }

  lemma StepKeepsWorded(c: Config, w: World, a: Action)
    requires Inv(c, w) && Worded(c, w) && Enabled(c, w, a)
    ensures Worded(c, Next(c, w, a))
  {
    hide Inv, Enabled, Next, Worded;
    if a.Start? && a.call.name.Complete? {
      SavingKeepsWorded(c, w, a.call, a.oracle);
    } else {
      CarryingKeeps(c, w, a);
      DeliveriesMove(c, w, a);
      WordsKept(c, w, Next(c, w, a));
    }
  }

  lemma {:induction false} RunsKeepWorded(c: Config, w: World, actions: seq<Action>)
    requires Inv(c, w) && Worded(c, w) && Safety.AllEnabled(c, w, actions)
    ensures Worded(c, Safety.After(c, w, actions))
    decreases actions
  {
    hide Inv, Worded, Enabled, Next;
    if actions != [] {
      StepKeepsInv(c, w, actions[0]);
      StepKeepsWorded(c, w, actions[0]);
      RunsKeepWorded(c, Next(c, w, actions[0]), actions[1..]);
    }
  }

  /** A completed Task is posted with the one reply that the Session stores under the final-reply key. */
  lemma CallbackCarriesTheReply(c: Config, w: World, actions: seq<Action>, i: nat)
    requires Safety.Initial(c, w) && Safety.AllEnabled(c, w, actions)
    requires i < |Safety.After(c, w, actions).posted|
    ensures
      var v := Safety.After(c, w, actions);
      v.posted[i].state.Completed? ==> v.posted[i].message.Some? && Stores(v.store, Final(c), v.posted[i].message.value)
  {
    Safety.InitiallyInv(c, w);
    assert Worded(c, w);
    Safety.RunsKeepInv(c, w, actions);
    RunsKeepWorded(c, w, actions);
    var v := Safety.After(c, w, actions);
    assert Replay.SavedBy(v.journal, false, v.posted[i]) || Replay.SavedBy(v.journal, true, v.posted[i]);
    assert Carries(c, v.store, v.posted[i]);
  }

  // ---- who ends up told -----------------------------------------------------------------------------------

  /** A recorded callback was posted. */
  ghost predicate Told(w: World) {
    forall a :: (Notify(a) in w.journal && w.journal[Notify(a)].Returned?) || Notify(a) in w.bodies ==>
      exists i :: 0 <= i < |w.posted| && Replay.SavedBy(w.journal, a, w.posted[i])
  }

  lemma StepKeepsTold(c: Config, w: World, a: Action)
    requires Inv(c, w) && Told(w) && Enabled(c, w, a)
    ensures Told(Next(c, w, a))
  {
    var v := Next(c, w, a);
    PostedGrows(c, w, a);
    assert forall b, t :: Replay.SavedBy(w.journal, b, t) ==> Replay.SavedBy(v.journal, b, t) by {
      SavedStaysSaved(c, w, a);
    }
    if a.Start? && a.call.name.Notify? {
      CallsAreSourced(c, w.journal, a.call);
      assert v.posted[|w.posted|] == a.call.input.task;
    }
    forall b | (Notify(b) in v.journal && v.journal[Notify(b)].Returned?) || Notify(b) in v.bodies
      ensures exists i :: 0 <= i < |v.posted| && Replay.SavedBy(v.journal, b, v.posted[i])
    {
      if a.Start? && a.call.name == Notify(b) {
        assert Replay.SavedBy(v.journal, b, v.posted[|w.posted|]);
      } else {
        NotifyWasThere(c, w, a, b);
        var i :| 0 <= i < |w.posted| && Replay.SavedBy(w.journal, b, w.posted[i]);
        assert v.posted[i] == w.posted[i];
      }
    }
  }

  lemma SavedStaysSaved(c: Config, w: World, a: Action)
    requires Inv(c, w) && Enabled(c, w, a)
    ensures forall b, t :: Replay.SavedBy(w.journal, b, t) ==> Replay.SavedBy(Next(c, w, a).journal, b, t)
  {
    if a.Record? {
      FlightKnown(c, w, a.name);
    }
  }

  lemma NotifyWasThere(c: Config, w: World, a: Action, b: bool)
    requires Inv(c, w) && Enabled(c, w, a) && !(a.Start? && a.call.name == Notify(b))
    requires
      var v := Next(c, w, a);
      (Notify(b) in v.journal && v.journal[Notify(b)].Returned?) || Notify(b) in v.bodies
    ensures (Notify(b) in w.journal && w.journal[Notify(b)].Returned?) || Notify(b) in w.bodies
  {
    hide Inv, Opening, Onwards, Agent.HostSave, Agent.CancelTask, Subtasks.Apply, Calls;
  }

  lemma {:induction false} RunsKeepTold(c: Config, w: World, actions: seq<Action>)
    requires Inv(c, w) && Told(w) && Safety.AllEnabled(c, w, actions)
    ensures Told(Safety.After(c, w, actions))
    decreases actions
  {
    hide Inv, Told, Enabled, Next;
    if actions != [] {
      StepKeepsInv(c, w, actions[0]);
      StepKeepsTold(c, w, actions[0]);
      RunsKeepTold(c, Next(c, w, actions[0]), actions[1..]);
    }
  }

  /**
   * When a Workflow ends without an error its Task was canceled, or a terminal save
   * was refused, or the saved Task was posted.
   */
  lemma EndedMeansTold(c: Config, w: World, actions: seq<Action>)
    requires Safety.Initial(c, w) && Safety.AllEnabled(c, w, actions)
    requires Run(Safety.After(c, w, actions).journal, c.limits).end == End.Ended
    ensures
      var v := Safety.After(c, w, actions);
      || Tasks.IsCanceled(v.store.tasks, c.taskId)
      || (exists a :: Complete(a) in v.journal && v.journal[Complete(a)] == Returned(Saved(None)))
      || (exists a, i :: 0 <= i < |v.posted| && Replay.SavedBy(v.journal, a, v.posted[i]))
  {
    Safety.InitiallyInv(c, w);
    Safety.RunsKeepInv(c, w, actions);
    RunsKeepTold(c, w, actions);
    var v := Safety.After(c, w, actions);
    hide Inv, Workflow.Run;
    Replay.RunExplained(v.journal, c.limits);
    if Working in v.journal && v.journal[Working] == Returned(Flag(false)) {
      Safety.RecordKnown(c, v, Working);
    } else if r :| Replay.CanceledAt(v.journal, r) {
      Safety.RecordKnown(c, v, Turn(r));
    } else if r :| Replay.ScannedAt(v.journal, r) && v.journal[Scan(r)].value.canceled {
      Safety.RecordKnown(c, v, Scan(r));
    } else {
      var a :| Replay.DeliveryOver(v.journal, a);
    }
  }
}
