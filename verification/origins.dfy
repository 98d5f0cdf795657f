/**
 * Where everything durable comes from: over every run, the user's message is stored
 * before anything else of its Task, and each answer, acknowledgment, row and result
 * is the one some model, plugin, child or host gave.
 */
module Origins {
  import opened Wrappers
  import opened Workflow
  import opened Agent
  import opened Protocol
  import Callbacks
  import History
  import Replay
  import Safety
  import Subtasks
  import Tasks
  import Text
  import Traces

  // ---- the subtask operations of a run -----------------------------------------------------------

  /** What a step's first segment does to the subtasks. */
  function OpeningOps(c: Config, s: Store, call: Call, o: Oracle): seq<Subtasks.Op> {
    match call.name
    case CancelRound(_) => [Subtasks.CancelingPending(c.taskId, o.now)]
    case FailBranch(id) => [Subtasks.Failing(id, o.words, o.now)]
    case Execute(id, _) =>
      if !Unfinished(s, id) then []
      else if Tasks.IsCanceled(s.tasks, s.subtasks.rows[id].taskId) then [Subtasks.CancelingRunning(id, o.now)]
      else if o.resolved.Usable? then [Subtasks.Starting(id, o.resolved.recipe, o.now)]
      else [Subtasks.Starting(id, o.resolved.recipe, o.now), Subtasks.Failing(id, o.resolved.why, o.now)]
    case _ => []
  }

  /** What a child's result does to its row. */
  function ResultOp(id: nat, result: ChildResult, now: int): Subtasks.Op {
    match result
    case ChildFailed(error) => Subtasks.Failing(id, error, now)
    case ChildCompleted(parts) =>
      if exists i :: 0 <= i < |parts| && !Text.Blank(parts[i]) then Subtasks.Completing(id, parts, now)
      else Subtasks.Failing(id, "malformed result", now)
  }

  /** What a later segment does to them. */
  function OnwardsOps(c: Config, s: Store, n: StepName, body: Body, o: Oracle): seq<Subtasks.Op> {
    match (n, body)
    case (Turn(r), Appended(Delegating(_, drafts), _)) =>
      if Tasks.IsCanceled(s.tasks, c.taskId) then [] else [Subtasks.Creating(c.taskId, r, drafts, o.now)]
    case (Execute(id, _), Executing(taskId)) =>
      if Tasks.IsCanceled(s.tasks, taskId) then [Subtasks.CancelingRunning(id, o.now)] else []
    case (Execute(id, _), Enriching(_, result)) => [ResultOp(id, result, o.now)]
    case _ => []
  }

  function OpsOf(c: Config, w: World, a: Action): seq<Subtasks.Op> {
    match a
    case Start(call, o) => OpeningOps(c, w.store, call, o)
    case Continue(n, o) => if n in w.bodies then OnwardsOps(c, w.store, n, w.bodies[n].body, o) else []
    case CancelTask(taskId, now) =>
      if taskId in w.store.tasks && Tasks.Active(w.store.tasks[taskId].task.state) then [Subtasks.CancelingPending(taskId, now)] else []
    case HostSave(task, now) =>
      if task.state.Canceled? && Tasks.SaveApplies(Tasks.TaskAt(w.store.tasks, task.id), task)
      then [Subtasks.CancelingPending(task.id, now)] else []
    case Resolve(id, now) => [Subtasks.CancelingRunning(id, now)]
    case Elsewhere(op) => if op.Creating? || op.CancelingPending? || op.Cleaning? || op.id in w.store.subtasks.rows then [op] else []
    case _ => []
  }

  /** Running up to two operations. */
  lemma AppliedInTurn(t: Subtasks.Table, op: Subtasks.Op, next: Subtasks.Op, max: nat)
    ensures Subtasks.ApplyAll(t, [], max) == t
    ensures Subtasks.ApplyAll(t, [op], max) == Subtasks.Apply(t, op, max)
    ensures Subtasks.ApplyAll(t, [op, next], max) == Subtasks.Apply(Subtasks.Apply(t, op, max), next, max)
  {
    hide Subtasks.Apply;
    assert [op][1..] == [] && [op, next][1..] == [next] && [next][1..] == [];
    assert Subtasks.ApplyAll(Subtasks.Apply(t, op, max), [next], max)
      == Subtasks.ApplyAll(Subtasks.Apply(Subtasks.Apply(t, op, max), next, max), [], max);
  }

  lemma OpeningMoves(c: Config, s: Store, call: Call, o: Oracle)
    ensures Opening(c, s, call, o).store.subtasks == Subtasks.ApplyAll(s.subtasks, OpeningOps(c, s, call, o), c.max)
  {
    var any := Subtasks.CancelingPending(c.taskId, o.now);
    match call.name
    case CancelRound(_) => AppliedInTurn(s.subtasks, Subtasks.CancelingPending(c.taskId, o.now), any, c.max);
    case FailBranch(id) => AppliedInTurn(s.subtasks, Subtasks.Failing(id, o.words, o.now), any, c.max);
    case Execute(id, _) =>
      AppliedInTurn(s.subtasks, Subtasks.CancelingRunning(id, o.now), any, c.max);
      AppliedInTurn(s.subtasks, Subtasks.Starting(id, o.resolved.recipe, o.now),
                    Subtasks.Failing(id, if o.resolved.Unusable? then o.resolved.why else "", o.now), c.max);
    case _ =>
  }

  lemma OnwardsMoves(c: Config, s: Store, n: StepName, body: Body, o: Oracle)
    ensures Onwards(c, s, n, body, o).store.subtasks == Subtasks.ApplyAll(s.subtasks, OnwardsOps(c, s, n, body, o), c.max)
  {
    var any := Subtasks.CancelingPending(c.taskId, o.now);
    match (n, body)
    case (Turn(r), Appended(Delegating(_, drafts), _)) => AppliedInTurn(s.subtasks, Subtasks.Creating(c.taskId, r, drafts, o.now), any, c.max);
    case (Execute(id, _), Executing(taskId)) => AppliedInTurn(s.subtasks, Subtasks.CancelingRunning(id, o.now), any, c.max);
    case (Execute(id, _), Enriching(_, result)) => AppliedInTurn(s.subtasks, ResultOp(id, result, o.now), any, c.max);
    case _ =>
  }

  lemma ActionMoves(c: Config, w: World, a: Action)
    requires Enabled(c, w, a)
    ensures Next(c, w, a).store.subtasks == Subtasks.ApplyAll(w.store.subtasks, OpsOf(c, w, a), c.max)
  {
    Safety.NextStore(c, w, a);
    var any := Subtasks.CancelingPending(c.taskId, 0);
    hide Enabled, Opening, Onwards, OpeningOps, OnwardsOps, Calls;
    match a
    case Start(call, o) =>
      hide Next;
      OpeningMoves(c, w.store, call, o);
    case Continue(n, o) =>
      hide Next;
      OnwardsMoves(c, w.store, n, w.bodies[n].body, o);
    case CancelTask(taskId, now) => AppliedInTurn(w.store.subtasks, Subtasks.CancelingPending(taskId, now), any, c.max);
    case HostSave(task, now) => AppliedInTurn(w.store.subtasks, Subtasks.CancelingPending(task.id, now), any, c.max);
    case Resolve(id, now) => AppliedInTurn(w.store.subtasks, Subtasks.CancelingRunning(id, now), any, c.max);
    case Elsewhere(op) => AppliedInTurn(w.store.subtasks, op, any, c.max);
    case _ =>
  }

  function HistoryOps(c: Config, w: World, actions: seq<Action>): seq<Subtasks.Op>
    decreases actions
  {
    if actions == [] then [] else OpsOf(c, w, actions[0]) + HistoryOps(c, Next(c, w, actions[0]), actions[1..])
  }

  lemma {:induction false} AppliedTogether(t: Subtasks.Table, a: seq<Subtasks.Op>, b: seq<Subtasks.Op>, max: nat)
    ensures Subtasks.ApplyAll(t, a + b, max) == Subtasks.ApplyAll(Subtasks.ApplyAll(t, a, max), b, max)
    decreases a
  {
    hide Subtasks.Apply;
    if a == [] {
      assert a + b == b;
    } else {
      assert (a + b)[1..] == a[1..] + b;
      AppliedTogether(Subtasks.Apply(t, a[0], max), a[1..], b, max);
    }
  }

  /** A run's subtasks are what its operations leave of those it began with. */
  lemma {:induction false} RunMoves(c: Config, w: World, actions: seq<Action>)
    requires Safety.AllEnabled(c, w, actions)
    ensures Safety.After(c, w, actions).store.subtasks == Subtasks.ApplyAll(w.store.subtasks, HistoryOps(c, w, actions), c.max)
    decreases actions
  {
    hide Enabled, Next, OpsOf, Subtasks.Apply;
    if actions != [] {
      ActionMoves(c, w, actions[0]);
      RunMoves(c, Next(c, w, actions[0]), actions[1..]);
      AppliedTogether(w.store.subtasks, OpsOf(c, w, actions[0]), HistoryOps(c, Next(c, w, actions[0]), actions[1..]), c.max);
      hide Subtasks.ApplyAll;
    }
  }

  /** The operation is one of the i-th action's. */
  ghost predicate DoneAt(c: Config, w: World, actions: seq<Action>, i: nat, op: Subtasks.Op) {
    i < |actions| && op in OpsOf(c, Traces.Before(c, w, actions, i), actions[i])
  }

  lemma {:induction false} OpsAreDone(c: Config, w: World, actions: seq<Action>, op: Subtasks.Op)
    requires op in HistoryOps(c, w, actions)
    ensures exists i: nat :: DoneAt(c, w, actions, i, op)
    decreases actions
  {
    hide Next, OpsOf;
    if actions != [] {
      var next := Next(c, w, actions[0]);
      if op in OpsOf(c, w, actions[0]) {
        assert actions[..0] == [];
        assert DoneAt(c, w, actions, 0, op);
      } else {
        OpsAreDone(c, next, actions[1..], op);
        var i: nat :| DoneAt(c, next, actions[1..], i, op);
        assert actions[..i + 1][1..] == actions[1..][..i];
        assert Traces.Before(c, w, actions, i + 1) == Traces.Before(c, next, actions[1..], i);
        assert DoneAt(c, w, actions, i + 1, op);
      }
    }
  }

  /** The Task's rows are all new in its run, and so each of them is explained by it. */
  lemma RowsAreOfTheRun(c: Config, w: World, actions: seq<Action>, id: nat)
    requires Safety.Initial(c, w) && Safety.AllEnabled(c, w, actions)
    requires
      var rows := Safety.After(c, w, actions).store.subtasks.rows;
      id in rows && rows[id].taskId == c.taskId
    ensures Subtasks.Explained(Safety.After(c, w, actions).store.subtasks.rows[id], id, HistoryOps(c, w, actions))
  {
    RunMoves(c, w, actions);
    Subtasks.BelowNext(w.store.subtasks, c.max);
    var ops := HistoryOps(c, w, actions);
    Subtasks.TableInvariant(w.store.subtasks, ops, c.max);
    hide Safety.AllEnabled, Safety.After, HistoryOps, Subtasks.ApplyAll, Subtasks.Valid, Subtasks.Explained;
    assert id >= w.store.subtasks.nextId;
    Subtasks.RowsAreExplained(w.store.subtasks, ops, c.max, id);
  }

  // ---- where a body comes from ----------------------------------------------------------------------

  /** The model's decision in this round, as the i-th action brought it. */
  ghost predicate ModelSaid(actions: seq<Action>, i: nat, n: StepName, inference: Inference, turns: nat) {
    i < |actions| && actions[i].Continue? && actions[i].name == n && actions[i].oracle.inference == inference && actions[i].oracle.turns == turns
  }

  ghost predicate ChildSaid(actions: seq<Action>, i: nat, n: StepName, result: ChildResult) {
    i < |actions| && actions[i].Continue? && actions[i].name == n && actions[i].oracle.chunk == Chunk.Ended(result)
  }

  /** The inference that an appended decision, or a verdict, is of. */
  ghost predicate IsOf(appended: Inference, inference: Inference) {
    match appended
    case Replying(_) => inference.Replying?
    case Delegating(_, drafts) => inference.Delegating? && inference.drafts == drafts
    case Failing(_, _) => false
  }

  ghost predicate VerdictOf(verdict: Verdict, inference: Inference) {
    match verdict
    case Replied(_) => inference.Replying?
    case Delegated => inference.Delegating?
    case Failed(kind, error) => inference == Failing(kind, error)
    case Canceled => true
  }

  ghost predicate SaidSo(actions: seq<Action>, n: StepName, appended: Inference, turns: nat) {
    exists i: nat, inference :: ModelSaid(actions, i, n, inference, turns) && IsOf(appended, inference)
  }

  ghost predicate Decided(actions: seq<Action>, n: StepName, verdict: Verdict, turns: nat) {
    exists i: nat, inference :: ModelSaid(actions, i, n, inference, turns) && VerdictOf(verdict, inference)
  }

  ghost predicate Brought(actions: seq<Action>, n: StepName, result: ChildResult) {
    exists i: nat :: ChildSaid(actions, i, n, result)
  }

  /**
   * What some action must have brought for a body to stand where it stands. A verdict
   * that no model was asked for costs nothing, and is no failure.
   */
  ghost predicate Sourced(actions: seq<Action>, n: StepName, body: Body) {
    match body
    case Appended(appended, turns) => n.Turn? ==> SaidSo(actions, n, appended, turns)
    case Finished(Turned(verdict, turns)) => n.Turn? ==> Decided(actions, n, verdict, turns) || (turns == 0 && !verdict.Failed?)
    case Enriching(_, result) => n.Execute? ==> Brought(actions, n, result)
    case _ => true
  }

  ghost predicate HasBody(w: World, n: StepName, body: Body) {
    || (n in w.bodies && w.bodies[n].body == body)
    || (n in w.journal && w.journal[n].Returned? && body == Finished(w.journal[n].value))
  }

  ghost predicate AllSourced(w: World, actions: seq<Action>) {
    forall n, body :: HasBody(w, n, body) ==> Sourced(actions, n, body)
  }

  lemma SourcedLater(actions: seq<Action>, a: Action, n: StepName, body: Body)
    requires Sourced(actions, n, body)
    ensures Sourced(actions + [a], n, body)
  {
    var more := actions + [a];
    assert forall i :: 0 <= i < |actions| ==> more[i] == actions[i];
    match body
    case Appended(appended, turns) =>
      if n.Turn? {
        var i: nat, inference :| ModelSaid(actions, i, n, inference, turns) && IsOf(appended, inference);
        assert ModelSaid(more, i, n, inference, turns);
      }
    case Finished(Turned(verdict, turns)) =>
      if n.Turn? && Decided(actions, n, verdict, turns) {
        var i: nat, inference :| ModelSaid(actions, i, n, inference, turns) && VerdictOf(verdict, inference);
        assert ModelSaid(more, i, n, inference, turns);
      }
    case Enriching(_, result) =>
      if n.Execute? {
        var i: nat :| ChildSaid(actions, i, n, result);
        assert ChildSaid(more, i, n, result);
      }
    case _ =>
  }

  /** A body is new where its step starts or goes on. */
  lemma BodiesMove(c: Config, w: World, a: Action, n: StepName, body: Body)
    requires Inv(c, w) && Enabled(c, w, a) && HasBody(Next(c, w, a), n, body)
    ensures
      || HasBody(w, n, body)
      || (a.Start? && a.call.name == n && Opening(c, w.store, a.call, a.oracle).body == Some(body))
      || (a.Continue? && a.name == n && n in w.bodies && Onwards(c, w.store, n, w.bodies[n].body, a.oracle).body == Some(body))
  {
    hide Inv, Opening, Onwards, Agent.HostSave, Agent.CancelTask, Subtasks.Apply, Calls, Legal;
  }

  lemma OpeningIsSourced(c: Config, s: Store, call: Call, o: Oracle, actions: seq<Action>, body: Body)
    requires Opening(c, s, call, o).body == Some(body)
    ensures Sourced(actions, call.name, body)
  {}

  lemma OnwardsIsSourced(c: Config, s: Store, actions: seq<Action>, a: Action, before: Body, body: Body)
    requires a.Continue? && Sourced(actions, a.name, before)
    requires Onwards(c, s, a.name, before, a.oracle).body == Some(body)
    ensures Sourced(actions + [a], a.name, body)
  {
    var more := actions + [a];
    assert more[|actions|] == a;
    SourcedLater(actions, a, a.name, before);
    hide Subtasks.Create, Subtasks.Complete, Subtasks.Fail, Subtasks.CancelRunning;
    if a.name.Turn? && before.Inferring? {
      assert ModelSaid(more, |actions|, a.name, a.oracle.inference, a.oracle.turns);
    } else if a.name.Turn? && before.Appended? {
      var i: nat, inference :| ModelSaid(more, i, a.name, inference, before.turns) && IsOf(before.inference, inference);
    } else if a.name.Execute? && before.Executing? && body.Enriching? {
      assert ChildSaid(more, |actions|, a.name, body.result);
    }
  }

  lemma StepIsSourced(c: Config, w: World, actions: seq<Action>, a: Action, n: StepName, body: Body)
    requires Inv(c, w) && Enabled(c, w, a) && AllSourced(w, actions) && HasBody(Next(c, w, a), n, body)
    ensures Sourced(actions + [a], n, body)
  {
    hide Inv, Enabled, Next, Opening, Onwards, Sourced, HasBody;
    BodiesMove(c, w, a, n, body);
    if HasBody(w, n, body) {
      SourcedLater(actions, a, n, body);
    } else if a.Start? {
      OpeningIsSourced(c, w.store, a.call, a.oracle, actions + [a], body);
    } else {
      InFlight(w, n);
      OnwardsIsSourced(c, w.store, actions, a, w.bodies[n].body, body);
    }
  }

  lemma {:induction false} RunsAreSourced(c: Config, w: World, actions: seq<Action>)
    requires Safety.Initial(c, w) && Safety.AllEnabled(c, w, actions)
    ensures AllSourced(Safety.After(c, w, actions), actions)
    decreases |actions|
  {
    if actions != [] {
      var rest, a := actions[..|actions| - 1], actions[|actions| - 1];
      hide Inv, Enabled, Next, Safety.Initial, Safety.AllEnabled, Safety.After, Sourced, HasBody;
      Traces.TaskRunEnds(c, w, actions);
      RunsAreSourced(c, w, rest);
      forall n, body | HasBody(Safety.After(c, w, actions), n, body)
        ensures Sourced(actions, n, body)
      {
        StepIsSourced(c, Safety.After(c, w, rest), rest, a, n, body);
      }
    }
  }

  lemma InFlight(w: World, n: StepName)
    requires n in w.bodies
    ensures HasBody(w, n, w.bodies[n].body)
  {}

  // ---- a row tells the run -------------------------------------------------------------------------

  /** Some chunk step of the subtask was started with its type resolved like this. */
  ghost predicate ResolvedAs(actions: seq<Action>, i: nat, id: nat, resolved: Resolved) {
    && i < |actions| && actions[i].Start? && actions[i].call.name.Execute? && actions[i].call.name.id == id
    && actions[i].oracle.resolved == resolved
  }

  /** The step that fails the branch was started with these words. */
  ghost predicate GivenUpAs(actions: seq<Action>, i: nat, id: nat, words: string) {
    i < |actions| && actions[i].Start? && actions[i].call.name == FailBranch(id) && actions[i].oracle.words == words
  }

  ghost predicate IsResolved(actions: seq<Action>, id: nat, resolved: Resolved) {
    exists i: nat :: ResolvedAs(actions, i, id, resolved)
  }

  /** The subtask's child came back with this result. */
  ghost predicate Returned(actions: seq<Action>, id: nat, result: ChildResult) {
    exists chunk: nat :: Brought(actions, Execute(id, chunk), result)
  }

  predicate HasText(parts: seq<string>) {
    exists i :: 0 <= i < |parts| && !Text.Blank(parts[i])
  }

  /** The error is the child's, or what a result without text is recorded as, or the unusable type's, or the host's. */
  ghost predicate ErrorOf(actions: seq<Action>, id: nat, error: string) {
    || Returned(actions, id, ChildFailed(error))
    || (error == "malformed result" && exists parts :: Returned(actions, id, ChildCompleted(parts)) && !HasText(parts))
    || (exists recipe :: IsResolved(actions, id, Unusable(recipe, error)))
    || (exists i: nat :: GivenUpAs(actions, i, id, error))
  }

  ghost predicate RecipeOf(actions: seq<Action>, id: nat, recipe: Subtasks.Recipe) {
    exists resolved: Resolved :: IsResolved(actions, id, resolved) && resolved.recipe == recipe
  }

  ghost predicate DraftOf(actions: seq<Action>, r: nat, draft: Subtasks.Draft) {
    exists appended: Inference, turns: nat :: SaidSo(actions, Turn(r), appended, turns) && appended.Delegating? && draft in appended.drafts
  }

  /** Everything a row says was brought by some action, or is the Task's cancellation. */
  ghost predicate TellsTheRun(c: Config, actions: seq<Action>, s: Store, id: nat, row: Subtasks.Row) {
    && DraftOf(actions, row.round, row.draft)
    && (row.recipe.Some? ==> RecipeOf(actions, id, row.recipe.value))
    && (match row.status
        case Pending => true
        case Running => row.recipe.Some?
        case Completed => row.recipe.Some? && row.results.Some? && HasText(row.results.value) && Returned(actions, id, ChildCompleted(row.results.value))
        case Failed => row.error.Some? && ErrorOf(actions, id, row.error.value)
        case Canceled => Tasks.IsCanceled(s.tasks, c.taskId))
  }

  /** No operation takes a row away. */
  lemma OpKeepsRow(t: Subtasks.Table, op: Subtasks.Op, max: nat, id: nat)
    requires Subtasks.Valid(t, max) && id in t.rows && !op.Cleaning?
    ensures Subtasks.Valid(Subtasks.Apply(t, op, max), max) && id in Subtasks.Apply(t, op, max).rows
  {
    Subtasks.BelowNext(t, max);
    Subtasks.ApplyKeepsValid(t, op, max);
    Subtasks.OperationsTakeEffect(t, op, max, id);
    hide Subtasks.Valid;
    if !op.Creating? {
      Subtasks.WriteOnARow(t, op, max, id);
    }
    hide Subtasks.Apply;
  }

  lemma {:induction false} OpsKeepRow(t: Subtasks.Table, ops: seq<Subtasks.Op>, max: nat, id: nat)
    requires Subtasks.Valid(t, max) && id in t.rows && forall op :: op in ops ==> !op.Cleaning?
    ensures id in Subtasks.ApplyAll(t, ops, max).rows
    decreases ops
  {
    hide Subtasks.Apply, Subtasks.Valid;
    if ops != [] {
      OpKeepsRow(t, ops[0], max, id);
      OpsKeepRow(Subtasks.Apply(t, ops[0], max), ops[1..], max, id);
    }
  }

  /** The row is the other, later: of the same Task and round, and the same when it was terminal. */
  ghost predicate IsLater(row: Subtasks.Row, later: Subtasks.Row) {
    && later.taskId == row.taskId && later.round == row.round
    && (Subtasks.Terminal(row.status) ==> later == row)
  }

  lemma NothingIsCleaned(c: Config, w: World, a: Action, op: Subtasks.Op)
    requires Enabled(c, w, a) && op in OpsOf(c, w, a)
    ensures !op.Cleaning?
  {
    hide Calls, Legal;
  }

  lemma LaterStill(a: Subtasks.Row, b: Subtasks.Row, d: Subtasks.Row)
    requires IsLater(a, b) && IsLater(b, d)
    ensures IsLater(a, d)
  {}

  lemma ActionKeepsRow(c: Config, w: World, a: Action, id: nat)
    requires Inv(c, w) && Enabled(c, w, a) && id in w.store.subtasks.rows
    ensures id in Next(c, w, a).store.subtasks.rows
    ensures IsLater(w.store.subtasks.rows[id], Next(c, w, a).store.subtasks.rows[id])
  {
    ActionMoves(c, w, a);
    hide Enabled, Next, OpsOf, Subtasks.ApplyAll;
    Subtasks.BelowNext(w.store.subtasks, c.max);
    hide Subtasks.Valid;
    forall op | op in OpsOf(c, w, a)
      ensures !op.Cleaning?
    {
      NothingIsCleaned(c, w, a, op);
    }
    OpsKeepRow(w.store.subtasks, OpsOf(c, w, a), c.max, id);
    Subtasks.TableInvariant(w.store.subtasks, OpsOf(c, w, a), c.max);
  }

  /** A row is there to stay; its Task and its round are its own, and once terminal it is final. */
  lemma {:induction false} RunKeepsRow(c: Config, w: World, actions: seq<Action>, i: nat, id: nat)
    requires Inv(c, w) && Safety.AllEnabled(c, w, actions) && i <= |actions|
    requires id in Traces.Before(c, w, actions, i).store.subtasks.rows
    ensures
      var s, t := Traces.Before(c, w, actions, i).store.subtasks, Safety.After(c, w, actions).store.subtasks;
      id in t.rows && IsLater(s.rows[id], t.rows[id])
    decreases |actions|
  {
    if i < |actions| {
      hide Inv, Enabled, Next, Safety.AllEnabled, Safety.After, IsLater;
      var n := |actions| - 1;
      assert actions[..n][..i] == actions[..i];
      Traces.RunEnds(c, w, actions);
      Safety.RunsKeepInv(c, w, actions[..n]);
      RunKeepsRow(c, w, actions[..n], i, id);
      ActionKeepsRow(c, Safety.After(c, w, actions[..n]), actions[n], id);
      LaterStill(Traces.Before(c, w, actions, i).store.subtasks.rows[id], Safety.After(c, w, actions[..n]).store.subtasks.rows[id],
                 Safety.After(c, w, actions).store.subtasks.rows[id]);
    } else {
      assert actions[..i] == actions;
    }
  }

  /** A cancellation that was there before an action is there at the end. */
  lemma CancellationStays(c: Config, w: World, actions: seq<Action>, i: nat)
    requires Inv(c, w) && Safety.AllEnabled(c, w, actions) && i <= |actions|
    requires Tasks.IsCanceled(Traces.Before(c, w, actions, i).store.tasks, c.taskId)
    ensures Tasks.IsCanceled(Safety.After(c, w, actions).store.tasks, c.taskId)
  {
    hide Inv, Enabled, Next, Tasks.IsCanceled;
    assert actions[..i] + actions[i..] == actions;
    Safety.RunsCompose(c, w, actions[..i], actions[i..]);
    Safety.RunsKeepInv(c, w, actions[..i]);
    Safety.CanceledForGood(c, Traces.Before(c, w, actions, i), actions[i..]);
  }

  /** Where an action stands in its run. */
  lemma StandsIn(c: Config, w: World, actions: seq<Action>, i: nat)
    requires Safety.Initial(c, w) && Safety.AllEnabled(c, w, actions) && i < |actions|
    ensures
      var v := Traces.Before(c, w, actions, i);
      && Inv(c, v) && Enabled(c, v, actions[i]) && AllSourced(v, actions[..i])
      && Traces.Before(c, w, actions, i + 1) == Next(c, v, actions[i])
  {
    Traces.RunsHaveMiddles(c, w, actions, i);
    Safety.InitiallyInv(c, w);
    Safety.RunsKeepInv(c, w, actions[..i]);
    RunsAreSourced(c, w, actions[..i]);
  }

  lemma SaidSoInTheEnd(actions: seq<Action>, i: nat, n: StepName, appended: Inference, turns: nat)
    requires i <= |actions| && SaidSo(actions[..i], n, appended, turns)
    ensures SaidSo(actions, n, appended, turns)
  {
    var k: nat, inference :| ModelSaid(actions[..i], k, n, inference, turns) && IsOf(appended, inference);
    assert ModelSaid(actions, k, n, inference, turns);
  }

  lemma BroughtInTheEnd(actions: seq<Action>, i: nat, n: StepName, result: ChildResult)
    requires i <= |actions| && Brought(actions[..i], n, result)
    ensures Brought(actions, n, result)
  {
    var k: nat :| ChildSaid(actions[..i], k, n, result);
    assert ChildSaid(actions, k, n, result);
  }

  // ---- each kind of operation, by the action that does it ---------------------------------------------

  lemma CreatorIs(c: Config, v: World, a: Action, op: Subtasks.Op)
    requires Enabled(c, v, a) && op in OpsOf(c, v, a) && op.Creating? && op.taskId == c.taskId
    ensures a.Continue? && a.name == Turn(op.round) && a.name in v.bodies && v.bodies[a.name].body.Appended?
    ensures v.bodies[a.name].body.inference.Delegating? && v.bodies[a.name].body.inference.drafts == op.drafts
  {
    hide Calls, Legal;
  }

  lemma CreationTells(c: Config, w: World, actions: seq<Action>, i: nat, op: Subtasks.Op, draft: Subtasks.Draft)
    requires Safety.Initial(c, w) && Safety.AllEnabled(c, w, actions) && DoneAt(c, w, actions, i, op)
    requires op.Creating? && op.taskId == c.taskId && draft in op.drafts
    ensures DraftOf(actions, op.round, draft)
  {
    StandsIn(c, w, actions, i);
    var v, a := Traces.Before(c, w, actions, i), actions[i];
    hide Safety.Initial, Safety.AllEnabled, Safety.After, Inv, Enabled, Next, OpsOf, HasBody;
    CreatorIs(c, v, a, op);
    InFlight(v, a.name);
    var body := v.bodies[a.name].body;
    assert Sourced(actions[..i], a.name, body);
    SaidSoInTheEnd(actions, i, a.name, body.inference, body.turns);
    hide Sourced, SaidSo;
  }

  /** An operation on a row of the Task is none of another Task's. */
  lemma NotElsewhere(c: Config, w: World, actions: seq<Action>, i: nat, op: Subtasks.Op, id: nat)
    requires Safety.Initial(c, w) && Safety.AllEnabled(c, w, actions) && DoneAt(c, w, actions, i, op)
    requires !op.Creating? && !op.CancelingPending? && !op.Cleaning? && op.id == id
    requires
      var rows := Safety.After(c, w, actions).store.subtasks.rows;
      id in rows && rows[id].taskId == c.taskId
    ensures !actions[i].Elsewhere?
    ensures actions[i].Resolve? ==> Tasks.IsCanceled(Traces.Before(c, w, actions, i).store.tasks, c.taskId)
  {
    StandsIn(c, w, actions, i);
    Safety.InitiallyInv(c, w);
    var v := Traces.Before(c, w, actions, i);
    if id in v.store.subtasks.rows {
      RunKeepsRow(c, w, actions, i, id);
    }
    hide Safety.Initial, Safety.AllEnabled, Safety.After, Inv, Calls, Legal, Next, AllSourced;
  }

  lemma ClaimTells(c: Config, w: World, actions: seq<Action>, i: nat, op: Subtasks.Op, id: nat)
    requires Safety.Initial(c, w) && Safety.AllEnabled(c, w, actions) && DoneAt(c, w, actions, i, op)
    requires op.Starting? && op.id == id && !actions[i].Elsewhere?
    ensures RecipeOf(actions, id, op.recipe)
  {
    hide Safety.Initial, Safety.AllEnabled, Safety.After;
    assert actions[i].Start? && actions[i].call.name.Execute?;
    assert ResolvedAs(actions, i, id, actions[i].oracle.resolved);
    assert IsResolved(actions, id, actions[i].oracle.resolved);
  }

  lemma ResulterIs(c: Config, v: World, a: Action, op: Subtasks.Op)
    requires op in OpsOf(c, v, a) && (op.Completing? || op.Failing?) && !a.Elsewhere? && !a.Start?
    ensures a.Continue? && a.name in v.bodies && a.name.Execute? && a.name.id == op.id && v.bodies[a.name].body.Enriching?
    ensures op == ResultOp(op.id, v.bodies[a.name].body.result, op.now)
  {}

  /** A result that a body carries was brought to it. */
  lemma CarriedTells(v: World, actions: seq<Action>, i: nat, n: StepName)
    requires i <= |actions| && AllSourced(v, actions[..i]) && n.Execute? && n in v.bodies && v.bodies[n].body.Enriching?
    ensures Returned(actions, n.id, v.bodies[n].body.result)
  {
    hide HasBody;
    InFlight(v, n);
    assert Sourced(actions[..i], n, v.bodies[n].body);
    BroughtInTheEnd(actions, i, n, v.bodies[n].body.result);
    assert n == Execute(n.id, n.chunk);
  }

  lemma ResultTells(c: Config, w: World, actions: seq<Action>, i: nat, op: Subtasks.Op, id: nat)
    requires Safety.Initial(c, w) && Safety.AllEnabled(c, w, actions) && DoneAt(c, w, actions, i, op)
    requires (op.Completing? || op.Failing?) && op.id == id && !actions[i].Elsewhere?
    ensures op.Completing? ==> Returned(actions, id, ChildCompleted(op.parts)) && HasText(op.parts)
    ensures op.Failing? ==> ErrorOf(actions, id, op.error)
  {
    hide Safety.Initial, Safety.AllEnabled, Safety.After, Inv, Enabled, Next, OpsOf, AllSourced, Returned, IsResolved;
    StandsIn(c, w, actions, i);
    var v, a := Traces.Before(c, w, actions, i), actions[i];
    if a.Start? {
      StartTells(c, v, actions, i, op, id);
    } else {
      ResulterIs(c, v, a, op);
      CarriedTells(v, actions, i, a.name);
    }
  }

  lemma StartTells(c: Config, v: World, actions: seq<Action>, i: nat, op: Subtasks.Op, id: nat)
    requires i < |actions| && actions[i].Start? && op in OpsOf(c, v, actions[i])
    requires (op.Completing? || op.Failing?) && op.id == id
    ensures op.Failing? && ErrorOf(actions, id, op.error)
  {
    var a := actions[i];
    if a.call.name.Execute? {
      assert ResolvedAs(actions, i, id, a.oracle.resolved);
      assert IsResolved(actions, id, Unusable(a.oracle.resolved.recipe, op.error));
    } else {
      assert GivenUpAs(actions, i, id, op.error);
    }
  }

  lemma CancellationTells(c: Config, w: World, actions: seq<Action>, i: nat, op: Subtasks.Op, id: nat)
    requires Safety.Initial(c, w) && Safety.AllEnabled(c, w, actions) && DoneAt(c, w, actions, i, op)
    requires (op.CancelingRunning? && op.id == id) || (op.CancelingPending? && op.taskId == c.taskId)
    requires
      var rows := Safety.After(c, w, actions).store.subtasks.rows;
      id in rows && rows[id].taskId == c.taskId
    ensures Tasks.IsCanceled(Safety.After(c, w, actions).store.tasks, c.taskId)
  {
    StandsIn(c, w, actions, i);
    Safety.InitiallyInv(c, w);
    if op.CancelingRunning? {
      NotElsewhere(c, w, actions, i, op, id);
    }
    var v := Traces.Before(c, w, actions, i);
    hide Safety.Initial, Safety.AllEnabled, Safety.After, AllSourced;
    CancelerIsCanceled(c, v, actions[i], op);
    if Tasks.IsCanceled(v.store.tasks, c.taskId) {
      CancellationStays(c, w, actions, i);
    } else {
      CancellationStays(c, w, actions, i + 1);
    }
  }

  lemma HostSaveCancels(s: Store, task: Tasks.Task, now: int)
    requires Tasks.Keyed(s.tasks) && task.state.Canceled? && Tasks.SaveApplies(Tasks.TaskAt(s.tasks, task.id), task)
    ensures Tasks.IsCanceled(Agent.HostSave(s, task, now).tasks, task.id)
  {
    Tasks.WritersTouchOneRow(s.tasks, task, task.id, now);
    assert Tasks.TaskAt(Agent.HostSave(s, task, now).tasks, task.id) == Some(task);
  }

  /** An action that cancels a row of the Task found it canceled, or cancels it. */
  lemma CancelerIsCanceled(c: Config, v: World, a: Action, op: Subtasks.Op)
    requires Inv(c, v) && Enabled(c, v, a) && op in OpsOf(c, v, a)
    requires op.CancelingRunning? || (op.CancelingPending? && op.taskId == c.taskId)
    requires op.CancelingRunning? ==> !a.Elsewhere? && (a.Resolve? ==> Tasks.IsCanceled(v.store.tasks, c.taskId))
    ensures Tasks.IsCanceled(v.store.tasks, c.taskId) || Tasks.IsCanceled(Next(c, v, a).store.tasks, c.taskId)
  {
    match a
    case Start(call, o) =>
      CancelingStart(c, v, call, o, op);
      hide Inv;
    case Continue(n, o) =>
      FlightKnown(c, v, n);
      hide Inv, Calls;
    case HostSave(task, now) =>
      Callbacks.InvKeyed(c, v);
      hide Inv, Agent.HostSave;
      HostSaveCancels(v.store, task, now);
    case CancelTask(taskId, now) =>
      Callbacks.InvKeyed(c, v);
      hide Inv;
    case _ => hide Inv;
  }

  /** A round's sweep is asked for behind a scan that found the Task canceled. */
  lemma SweepIsPlaced(c: Config, j: Journal, call: Call)
    requires call in Calls(c, j) && call.name.CancelRound?
    ensures Replay.ScannedAt(j, call.name.round) && j[Scan(call.name.round)].value.canceled
  {
    hide Orchestrate, Deliver;
    Replay.OrchestrationPlaced(j, c.limits);
    Replay.RecoveryNames(j);
  }

  lemma CancelingStart(c: Config, v: World, call: Call, o: Oracle, op: Subtasks.Op)
    requires Inv(c, v) && Enabled(c, v, Start(call, o)) && op in OpeningOps(c, v.store, call, o)
    requires op.CancelingRunning? || op.CancelingPending?
    ensures Tasks.IsCanceled(v.store.tasks, c.taskId)
  {
    hide Inv, Calls;
    if call.name.Execute? {
      Safety.BranchOfCall(c, v, call);
    } else {
      SweepIsPlaced(c, v.journal, call);
      Safety.RecordKnown(c, v, Scan(call.name.round));
    }
  }

  ghost predicate IsRowOf(c: Config, s: Store, id: nat) {
    id in s.subtasks.rows && s.subtasks.rows[id].taskId == c.taskId
  }

  lemma DraftTells(c: Config, w: World, actions: seq<Action>, op: Subtasks.Op, row: Subtasks.Row)
    requires Safety.Initial(c, w) && Safety.AllEnabled(c, w, actions)
    requires op in HistoryOps(c, w, actions) && Subtasks.CreatedBy(row, op) && row.taskId == c.taskId
    ensures DraftOf(actions, row.round, row.draft)
  {
    hide Safety.Initial, Safety.AllEnabled, HistoryOps, DoneAt, DraftOf;
    OpsAreDone(c, w, actions, op);
    var i: nat :| DoneAt(c, w, actions, i, op);
    CreationTells(c, w, actions, i, op, row.draft);
  }

  lemma RecipeTells(c: Config, w: World, actions: seq<Action>, op: Subtasks.Op, id: nat, row: Subtasks.Row)
    requires Safety.Initial(c, w) && Safety.AllEnabled(c, w, actions) && IsRowOf(c, Safety.After(c, w, actions).store, id)
    requires op in HistoryOps(c, w, actions) && Subtasks.ClaimedBy(row, id, op)
    ensures row.recipe.Some? && RecipeOf(actions, id, row.recipe.value)
  {
    hide Safety.Initial, Safety.AllEnabled, Safety.After, HistoryOps, DoneAt, RecipeOf;
    OpsAreDone(c, w, actions, op);
    var i: nat :| DoneAt(c, w, actions, i, op);
    NotElsewhere(c, w, actions, i, op, id);
    ClaimTells(c, w, actions, i, op, id);
  }

  lemma EndTells(c: Config, w: World, actions: seq<Action>, op: Subtasks.Op, id: nat, row: Subtasks.Row)
    requires Safety.Initial(c, w) && Safety.AllEnabled(c, w, actions) && IsRowOf(c, Safety.After(c, w, actions).store, id)
    requires op in HistoryOps(c, w, actions) && Subtasks.EndedBy(row, id, op) && row.taskId == c.taskId && Subtasks.Terminal(row.status)
    ensures row.status.Completed? ==> row.results.Some? && HasText(row.results.value) && Returned(actions, id, ChildCompleted(row.results.value))
    ensures row.status.Failed? ==> row.error.Some? && ErrorOf(actions, id, row.error.value)
    ensures row.status.Canceled? ==> Tasks.IsCanceled(Safety.After(c, w, actions).store.tasks, c.taskId)
  {
    hide Safety.Initial, Safety.AllEnabled, Safety.After, HistoryOps, DoneAt, ErrorOf, Returned, HasText;
    OpsAreDone(c, w, actions, op);
    var i: nat :| DoneAt(c, w, actions, i, op);
    if row.status.Canceled? {
      CancellationTells(c, w, actions, i, op, id);
    } else {
      NotElsewhere(c, w, actions, i, op, id);
      ResultTells(c, w, actions, i, op, id);
    }
  }

  /**
   * Over every run, each row of the Task tells the run: its draft is one a model
   * delegated in its round, its recipe the one its type was resolved to, its results
   * and its error what its child came back with, or the reason there was nothing to
   * run, or the host's words for a branch that was given up; and it is canceled only
   * with its Task.
   */
  lemma RowsTellTheRun(c: Config, w: World, actions: seq<Action>, id: nat)
    requires Safety.Initial(c, w) && Safety.AllEnabled(c, w, actions)
    requires IsRowOf(c, Safety.After(c, w, actions).store, id)
    ensures
      var s := Safety.After(c, w, actions).store;
      TellsTheRun(c, actions, s, id, s.subtasks.rows[id])
  {
    hide Safety.Initial, Safety.AllEnabled, Safety.After, HistoryOps, DraftOf, RecipeOf, ErrorOf, Returned, HasText;
    var ops, row := HistoryOps(c, w, actions), Safety.After(c, w, actions).store.subtasks.rows[id];
    RowsAreOfTheRun(c, w, actions, id);
    var created: nat :| created < |ops| && Subtasks.CreatedBy(row, ops[created]);
    DraftTells(c, w, actions, ops[created], row);
    if row.recipe.Some? {
      var claimed: nat :| claimed < |ops| && Subtasks.ClaimedBy(row, id, ops[claimed]);
      RecipeTells(c, w, actions, ops[claimed], id, row);
    }
    if Subtasks.Terminal(row.status) {
      var ended: nat :| ended < |ops| && Subtasks.EndedBy(row, id, ops[ended]);
      EndTells(c, w, actions, ops[ended], id, row);
    }
  }

  // ---- a round's rows are its model's drafts -----------------------------------------------------------

  /** The round has one row for each draft, under consecutive ids, in the drafts' order. */
  ghost predicate LaidOut(c: Config, s: Store, r: nat, drafts: seq<Subtasks.Draft>, first: nat) {
    && (forall id :: id in Of(c, s, r) <==> first <= id < first + |drafts|)
    && forall id :: id in Of(c, s, r) ==> s.subtasks.rows[id].draft == drafts[id - first]
  }

  ghost predicate RoundTells(c: Config, actions: seq<Action>, s: Store, r: nat) {
    exists reply, drafts, turns: nat, first: nat :: SaidSo(actions, Turn(r), Delegating(reply, drafts), turns) && LaidOut(c, s, r, drafts, first)
  }

  lemma OpKeepsRound(t: Subtasks.Table, op: Subtasks.Op, max: nat, taskId: string, r: nat)
    requires Subtasks.Valid(t, max) && !op.Cleaning? && !(op.Creating? && op.taskId == taskId && op.round == r)
    ensures Subtasks.RoundIds(Subtasks.Apply(t, op, max), taskId, r) == Subtasks.RoundIds(t, taskId, r)
    ensures forall id :: id in Subtasks.RoundIds(t, taskId, r) ==> Subtasks.Apply(t, op, max).rows[id].draft == t.rows[id].draft
  {
    Subtasks.BelowNext(t, max);
    hide Subtasks.Valid;
    if op.Creating? {
      Subtasks.OtherRoundsUntouched(t, op.taskId, op.round, op.drafts, op.now, taskId, r);
      forall id | id in Subtasks.RoundIds(t, taskId, r)
        ensures Subtasks.Apply(t, op, max).rows[id].draft == t.rows[id].draft
      {
        Subtasks.OperationsTakeEffect(t, op, max, id);
      }
    } else {
      WritesKeepMembers(t, op, max, taskId, r);
    }
  }

  lemma WritesKeepMembers(t: Subtasks.Table, op: Subtasks.Op, max: nat, taskId: string, r: nat)
    requires !op.Cleaning? && !op.Creating?
    ensures Subtasks.RoundIds(Subtasks.Apply(t, op, max), taskId, r) == Subtasks.RoundIds(t, taskId, r)
    ensures forall id :: id in Subtasks.RoundIds(t, taskId, r) ==> Subtasks.Apply(t, op, max).rows[id].draft == t.rows[id].draft
  {
    WritesMove(t, op, max);
    MovesKeepRounds(t, Subtasks.Apply(t, op, max), op, taskId, r);
    forall id | id in Subtasks.RoundIds(t, taskId, r)
      ensures Subtasks.Apply(t, op, max).rows[id].draft == t.rows[id].draft
    {
      Subtasks.WriteOnARow(t, op, max, id);
    }
  }

  lemma {:induction false} OpsKeepRound(t: Subtasks.Table, ops: seq<Subtasks.Op>, max: nat, taskId: string, r: nat)
    requires Subtasks.Valid(t, max)
    requires forall op :: op in ops ==> !op.Cleaning? && !(op.Creating? && op.taskId == taskId && op.round == r)
    ensures Subtasks.RoundIds(Subtasks.ApplyAll(t, ops, max), taskId, r) == Subtasks.RoundIds(t, taskId, r)
    ensures forall id :: id in Subtasks.RoundIds(t, taskId, r) ==> Subtasks.ApplyAll(t, ops, max).rows[id].draft == t.rows[id].draft
    decreases ops
  {
    if ops != [] {
      hide Subtasks.Apply, Subtasks.Valid;
      OpKeepsRound(t, ops[0], max, taskId, r);
      Subtasks.ApplyKeepsValid(t, ops[0], max);
      OpsKeepRound(Subtasks.Apply(t, ops[0], max), ops[1..], max, taskId, r);
    }
  }

  /** Only the commit of a round's own decision writes its rows. */
  lemma CommitsAlone(c: Config, w: World, a: Action, op: Subtasks.Op)
    requires Inv(c, w) && Enabled(c, w, a) && op in OpsOf(c, w, a) && op.Creating? && op.taskId == c.taskId
    ensures OpsOf(c, w, a) == [op] && Of(c, w.store, op.round) == {}
  {
    CreatorIs(c, w, a, op);
    FlightKnown(c, w, a.name);
    hide Inv, Enabled, Calls, Legal, Charged;
  }

  lemma CommitCreates(c: Config, w: World, a: Action, op: Subtasks.Op)
    requires Inv(c, w) && Enabled(c, w, a) && op in OpsOf(c, w, a) && op.Creating? && op.taskId == c.taskId
    ensures Of(c, w.store, op.round) == {}
    ensures Next(c, w, a).store.subtasks == Subtasks.Create(w.store.subtasks, c.taskId, op.round, op.drafts, c.max, op.now)
    ensures forall id :: id in w.store.subtasks.rows ==> id < w.store.subtasks.nextId
  {
    CommitsAlone(c, w, a, op);
    ActionMoves(c, w, a);
    AppliedInTurn(w.store.subtasks, op, op, c.max);
    Subtasks.BelowNext(w.store.subtasks, c.max);
    hide Inv, Enabled, Next, OpsOf, Of, Subtasks.ApplyAll, Subtasks.Create;
  }

  lemma CommitLaysOut(c: Config, w: World, a: Action, op: Subtasks.Op)
    requires Inv(c, w) && Enabled(c, w, a) && op in OpsOf(c, w, a) && op.Creating? && op.taskId == c.taskId
    ensures Of(c, Next(c, w, a).store, op.round) != {} ==> LaidOut(c, Next(c, w, a).store, op.round, op.drafts, w.store.subtasks.nextId)
  {
    hide Inv, Enabled, Next, OpsOf;
    CommitCreates(c, w, a, op);
    CreatedIsLaidOut(c, w.store, Next(c, w, a).store, op.round, op.drafts, op.now);
  }

  lemma CreatedIsLaidOut(c: Config, s: Store, t: Store, r: nat, drafts: seq<Subtasks.Draft>, now: int)
    requires Of(c, s, r) == {} && forall id :: id in s.subtasks.rows ==> id < s.subtasks.nextId
    requires t.subtasks == Subtasks.Create(s.subtasks, c.taskId, r, drafts, c.max, now)
    ensures Of(c, t, r) != {} ==> LaidOut(c, t, r, drafts, s.subtasks.nextId)
  {
    hide Subtasks.Inserted;
    if 1 <= |drafts| <= c.max {
      Subtasks.CreatedRowsAreTheDrafts(s.subtasks, c.taskId, r, drafts, c.max, now);
      hide Subtasks.Create;
    }
  }

  lemma LaidOutStays(c: Config, s: Store, t: Store, r: nat, drafts: seq<Subtasks.Draft>, first: nat)
    requires LaidOut(c, s, r, drafts, first) && Of(c, t, r) == Of(c, s, r)
    requires forall id :: id in Of(c, s, r) ==> t.subtasks.rows[id].draft == s.subtasks.rows[id].draft
    ensures LaidOut(c, t, r, drafts, first)
  {}

  lemma ActionKeepsRound(c: Config, w: World, a: Action, r: nat)
    requires Inv(c, w) && Enabled(c, w, a)
    requires forall op :: op in OpsOf(c, w, a) ==> !(op.Creating? && op.taskId == c.taskId && op.round == r)
    ensures Of(c, Next(c, w, a).store, r) == Of(c, w.store, r)
    ensures forall id :: id in Of(c, w.store, r) ==> Next(c, w, a).store.subtasks.rows[id].draft == w.store.subtasks.rows[id].draft
  {
    ActionMoves(c, w, a);
    hide Enabled, Next, OpsOf, Subtasks.Valid, Subtasks.ApplyAll;
    forall op | op in OpsOf(c, w, a)
      ensures !op.Cleaning?
    {
      NothingIsCleaned(c, w, a, op);
    }
    OpsKeepRound(w.store.subtasks, OpsOf(c, w, a), c.max, c.taskId, r);
  }

  lemma SaidSoLater(actions: seq<Action>, a: Action, n: StepName, appended: Inference, turns: nat)
    requires SaidSo(actions, n, appended, turns)
    ensures SaidSo(actions + [a], n, appended, turns)
  {
    assert (actions + [a])[..|actions|] == actions;
    SaidSoInTheEnd(actions + [a], |actions|, n, appended, turns);
  }

  lemma CommitTells(c: Config, w: World, actions: seq<Action>, a: Action, op: Subtasks.Op)
    requires Inv(c, w) && AllSourced(w, actions) && Enabled(c, w, a)
    requires op in OpsOf(c, w, a) && op.Creating? && op.taskId == c.taskId
    requires Of(c, Next(c, w, a).store, op.round) != {}
    ensures RoundTells(c, actions + [a], Next(c, w, a).store, op.round)
  {
    CommitLaysOut(c, w, a, op);
    CreatorIs(c, w, a, op);
    hide Inv, Enabled, Next, OpsOf, LaidOut, HasBody, SaidSo;
    InFlight(w, a.name);
    var body := w.bodies[a.name].body;
    assert Sourced(actions, a.name, body);
    SaidSoLater(actions, a, a.name, body.inference, body.turns);
    assert body.inference == Delegating(body.inference.reply, op.drafts);
  }

  lemma StepTellsTheRound(c: Config, w: World, actions: seq<Action>, a: Action, r: nat)
    requires Inv(c, w) && Enabled(c, w, a) && AllSourced(w, actions)
    requires Of(c, w.store, r) != {} ==> RoundTells(c, actions, w.store, r)
    requires Of(c, Next(c, w, a).store, r) != {}
    ensures RoundTells(c, actions + [a], Next(c, w, a).store, r)
  {
    hide Inv, Enabled, Next, OpsOf, AllSourced, LaidOut, SaidSo, Of;
    if op :| op in OpsOf(c, w, a) && op.Creating? && op.taskId == c.taskId && op.round == r {
      CommitTells(c, w, actions, a, op);
    } else {
      ActionKeepsRound(c, w, a, r);
      var reply, drafts, turns: nat, first: nat :|
        SaidSo(actions, Turn(r), Delegating(reply, drafts), turns) && LaidOut(c, w.store, r, drafts, first);
      SaidSoLater(actions, a, Turn(r), Delegating(reply, drafts), turns);
      LaidOutStays(c, w.store, Next(c, w, a).store, r, drafts, first);
    }
  }

  lemma {:induction false} RoundsTellTheRun(c: Config, w: World, actions: seq<Action>, r: nat)
    requires Safety.Initial(c, w) && Safety.AllEnabled(c, w, actions)
    ensures Of(c, Safety.After(c, w, actions).store, r) != {} ==> RoundTells(c, actions, Safety.After(c, w, actions).store, r)
    decreases |actions|
  {
    if actions != [] {
      hide Inv, Enabled, Next, Safety.Initial, Safety.AllEnabled, Safety.After, AllSourced, RoundTells, Of;
      var rest, a := actions[..|actions| - 1], actions[|actions| - 1];
      Traces.TaskRunEnds(c, w, actions);
      RunsAreSourced(c, w, rest);
      RoundsTellTheRun(c, w, rest, r);
      if Of(c, Safety.After(c, w, actions).store, r) != {} {
        StepTellsTheRound(c, Safety.After(c, w, rest), rest, a, r);
      }
    }
  }

  /**
   * Over every run, a delegated round's rows are exactly the drafts of one decision
   * of its model, one row for each, in their order.
   */
  lemma DelegatedRowsAreTheDrafts(c: Config, w: World, actions: seq<Action>, r: nat)
    requires Safety.Initial(c, w) && Safety.AllEnabled(c, w, actions)
    requires Of(c, Safety.After(c, w, actions).store, r) != {}
    ensures exists i: nat, said, drafts, turns: nat, first: nat ::
      ModelSaid(actions, i, Turn(r), Delegating(said, drafts), turns) && LaidOut(c, Safety.After(c, w, actions).store, r, drafts, first)
  {
    hide Safety.Initial, Safety.AllEnabled, Safety.After, LaidOut;
    RoundsTellTheRun(c, w, actions, r);
    var s := Safety.After(c, w, actions).store;
    var reply, drafts, turns: nat, first: nat :| SaidSo(actions, Turn(r), Delegating(reply, drafts), turns) && LaidOut(c, s, r, drafts, first);
    var i: nat, inference :| ModelSaid(actions, i, Turn(r), inference, turns) && IsOf(Delegating(reply, drafts), inference);
    assert inference == Delegating(inference.reply, drafts);
  }

  // ---- what the Session holds ------------------------------------------------------------------------------

  function UserKey(c: Config): History.Key {
    History.UserKey(c.taskId)
  }

  /** The Session has no message of the Task yet. */
  ghost predicate Fresh(c: Config, w: World) {
    forall k :: k in w.store.session ==> k.taskId != c.taskId
  }

  ghost predicate AnsweredBy(actions: seq<Action>, text: string) {
    exists i: nat, r: nat, turns: nat :: ModelSaid(actions, i, Turn(r), Replying(text), turns)
  }

  ghost predicate AcknowledgedBy(actions: seq<Action>, r: nat, reply: string) {
    exists i: nat, drafts, turns: nat :: ModelSaid(actions, i, Turn(r), Delegating(reply, drafts), turns)
  }

  /** Each message of the Task in the Session is the one its key is for. */
  ghost predicate MessageTells(c: Config, actions: seq<Action>, k: History.Key, text: string) {
    k.taskId == c.taskId ==>
      match k
      case UserKey(_) => text == c.text
      case FinalKey(_) => AnsweredBy(actions, text)
      case AckKey(_, r) => AcknowledgedBy(actions, r, text)
  }

  ghost predicate SessionTells(c: Config, actions: seq<Action>, s: Store) {
    forall k :: k in s.session ==> MessageTells(c, actions, k, s.session[k])
  }

  ghost predicate Held(s: Store, k: History.Key, text: string) {
    k in s.session && s.session[k] == text
  }

  lemma OpeningStores(c: Config, s: Store, call: Call, o: Oracle, k: History.Key, text: string)
    requires Held(Opening(c, s, call, o).store, k, text)
    ensures Held(s, k, text) || (k == UserKey(c) && text == c.text)
  {
    hide Subtasks.Start, Subtasks.Fail, Subtasks.CancelRunning, Subtasks.CancelPending, Rows;
  }

  lemma OnwardsStores(c: Config, s: Store, n: StepName, body: Body, o: Oracle, k: History.Key, text: string)
    requires Held(Onwards(c, s, n, body, o).store, k, text)
    ensures
      || Held(s, k, text)
      || (n.Turn? && o.inference == Replying(text) && k == Final(c))
      || (n.Turn? && o.inference.Delegating? && o.inference.reply == text && k == Ack(c, n.round))
  {
    hide Subtasks.Create, Subtasks.CreateAccepts, Subtasks.Complete, Subtasks.Fail, Subtasks.CancelRunning, Rows;
  }

  lemma HostsStore(c: Config, w: World, a: Action, k: History.Key, text: string)
    requires Enabled(c, w, a) && !a.Start? && !a.Continue? && Held(Next(c, w, a).store, k, text)
    ensures Held(w.store, k, text)
  {
    hide Calls, Legal, Subtasks.CancelPending, Subtasks.CancelRunning, Subtasks.Apply;
  }

  /** A message is new where a round's turn stores it. */
  lemma SessionMoves(c: Config, w: World, a: Action, k: History.Key)
    requires Enabled(c, w, a) && k in Next(c, w, a).store.session
    ensures
      var text := Next(c, w, a).store.session[k];
      || (k in w.store.session && w.store.session[k] == text)
      || (k == UserKey(c) && text == c.text)
      || (a.Continue? && a.name.Turn? && a.oracle.inference == Replying(text) && k == Final(c))
      || (a.Continue? && a.name.Turn? && a.oracle.inference.Delegating? && a.oracle.inference.reply == text && k == Ack(c, a.name.round))
  {
    hide Enabled, Next, Opening, Onwards;
    Safety.NextStore(c, w, a);
    var text := Next(c, w, a).store.session[k];
    match a
    case Start(call, o) => OpeningStores(c, w.store, call, o, k, text);
    case Continue(n, o) => OnwardsStores(c, w.store, n, w.bodies[n].body, o, k, text);
    case _ => HostsStore(c, w, a, k, text);
  }

  lemma MessageLater(c: Config, actions: seq<Action>, a: Action, k: History.Key, text: string)
    requires MessageTells(c, actions, k, text)
    ensures MessageTells(c, actions + [a], k, text)
  {
    var more := actions + [a];
    if k.taskId == c.taskId {
      match k
      case UserKey(_) =>
      case FinalKey(_) =>
        var i: nat, r: nat, turns: nat :| ModelSaid(actions, i, Turn(r), Replying(text), turns);
        assert ModelSaid(more, i, Turn(r), Replying(text), turns);
      case AckKey(_, r) =>
        var i: nat, drafts, turns: nat :| ModelSaid(actions, i, Turn(r), Delegating(text, drafts), turns);
        assert ModelSaid(more, i, Turn(r), Delegating(text, drafts), turns);
    }
  }

  lemma NewMessageTells(c: Config, w: World, actions: seq<Action>, a: Action, k: History.Key)
    requires SessionTells(c, actions, w.store) && Enabled(c, w, a) && k in Next(c, w, a).store.session
    ensures MessageTells(c, actions + [a], k, Next(c, w, a).store.session[k])
  {
    var text, more := Next(c, w, a).store.session[k], actions + [a];
    SessionMoves(c, w, a, k);
    assert more[|actions|] == a;
    hide Enabled, Next;
    if k in w.store.session && w.store.session[k] == text {
      MessageLater(c, actions, a, k, text);
    } else if a.Continue? && a.name.Turn? {
      assert a.name == Turn(a.name.round);
      if a.oracle.inference.Delegating? {
        assert a.oracle.inference == Delegating(a.oracle.inference.reply, a.oracle.inference.drafts);
      }
      assert ModelSaid(more, |actions|, a.name, a.oracle.inference, a.oracle.turns);
    }
  }

  /**
   * Over every run from a Session without the Task's messages: its user message is
   * the Task's text, its final reply an answer some round's model gave, and each
   * round's acknowledgment the words that round's model delegated with.
   */
  lemma {:induction false} SessionTellsTheRun(c: Config, w: World, actions: seq<Action>)
    requires Fresh(c, w) && Safety.AllEnabled(c, w, actions)
    ensures SessionTells(c, actions, Safety.After(c, w, actions).store)
    decreases |actions|
  {
    if actions != [] {
      var rest, a := actions[..|actions| - 1], actions[|actions| - 1];
      var before, after := Safety.After(c, w, rest), Safety.After(c, w, actions);
      Traces.RunEnds(c, w, actions);
      SessionTellsTheRun(c, w, rest);
      assert rest + [a] == actions;
      hide Enabled, Next, Safety.AllEnabled, Safety.After, MessageTells;
      forall k | k in after.store.session
        ensures MessageTells(c, actions, k, after.store.session[k])
      {
        NewMessageTells(c, before, rest, a, k);
      }
    }
  }

  // ---- the user is heard first ---------------------------------------------------------------------------

  ghost predicate Heard(c: Config, s: Store) {
    Stores(s, UserKey(c), c.text)
  }

  /** A turn that found the Task canceled, and did nothing else. */
  predicate CalledOff(body: Body) {
    body.Finished? && body.value.Turned? && body.value.verdict.Canceled?
  }

  /** Nothing of the Task is there: no message, no row, no turn but canceled ones. */
  ghost predicate Untouched(c: Config, w: World) {
    && Fresh(c, w)
    && (forall r: nat :: Of(c, w.store, r) == {})
    && (forall n, body :: HasBody(w, n, body) && n.Turn? ==> CalledOff(body))
  }

  lemma LaterRoundIsTouched(c: Config, w: World, call: Call)
    requires call in Calls(c, w.journal) && call.name.Turn? && call.name.round > 0
    ensures !Untouched(c, w)
  {
    CallsAreSourced(c, w.journal, call);
    Replay.OrchestrationPlaced(w.journal, c.limits);
    assert Replay.Passed(w.journal, 0);
    assert HasBody(w, Turn(0), Finished(w.journal[Turn(0)].value));
  }

  /** The first entry of an untouched Task stores the user's message. */
  lemma EntryHears(c: Config, w: World, call: Call, o: Oracle)
    requires Untouched(c, w) && Enabled(c, w, Start(call, o)) && call.name.Turn?
    ensures
      var seg := Opening(c, w.store, call, o);
      Stores(seg.store, UserKey(c), c.text) || (seg.body.Some? && CalledOff(seg.body.value))
  {
    UntouchedHasNone(c, w, call.name.round);
    if call.name.round > 0 {
      LaterRoundIsTouched(c, w, call);
    }
    hide Untouched, Enabled, Calls;
    assert Of(c, w.store, call.name.round) == Rows(w.store, c.taskId, call.name.round);
  }

  /** An untouched Task has no turn to go on with. */
  lemma NothingGoesOn(c: Config, w: World, a: Action)
    requires Untouched(c, w) && Enabled(c, w, a) && a.Continue?
    ensures !a.name.Turn?
  {
    InFlight(w, a.name);
  }

  lemma NothingIsCommitted(c: Config, w: World, a: Action, r: nat)
    requires Inv(c, w) && Untouched(c, w) && Enabled(c, w, a)
    ensures Of(c, Next(c, w, a).store, r) == {}
  {
    hide Enabled, Next, OpsOf, Inv, Untouched;
    if op :| op in OpsOf(c, w, a) && op.Creating? && op.taskId == c.taskId && op.round == r {
      CreatorIs(c, w, a, op);
      NothingGoesOn(c, w, a);
      assert false;
    } else {
      ActionKeepsRound(c, w, a, r);
      UntouchedHasNone(c, w, r);
    }
  }

  lemma UntouchedHasNone(c: Config, w: World, r: nat)
    requires Untouched(c, w)
    ensures Of(c, w.store, r) == {}
    ensures forall k :: k in w.store.session ==> k.taskId != c.taskId
  {}

  lemma SegmentsStore(c: Config, w: World, call: Call, o: Oracle)
    ensures Next(c, w, Start(call, o)).store == Opening(c, w.store, call, o).store
  {
    hide Opening;
  }

  lemma StaysUntouched(c: Config, w: World, a: Action)
    requires Inv(c, w) && Untouched(c, w) && Enabled(c, w, a)
    ensures Heard(c, Next(c, w, a).store) || Untouched(c, Next(c, w, a))
  {
    var next := Next(c, w, a);
    forall r: nat
      ensures Of(c, next.store, r) == {}
    {
      NothingIsCommitted(c, w, a, r);
    }
    if a.Continue? {
      NothingGoesOn(c, w, a);
    }
    if a.Start? && a.call.name.Turn? {
      EntryHears(c, w, a.call, a.oracle);
      SegmentsStore(c, w, a.call, a.oracle);
    }
    hide Inv, Enabled, Next, Opening, Onwards, Of, HasBody, CalledOff;
    if !Heard(c, next.store) {
      forall n, body | HasBody(next, n, body) && n.Turn?
        ensures CalledOff(body)
      {
        BodiesMove(c, w, a, n, body);
      }
      forall k | k in next.store.session
        ensures k.taskId != c.taskId
      {
        SessionMoves(c, w, a, k);
      }
    }
  }

  lemma HeardStays(c: Config, w: World, a: Action)
    requires Heard(c, w.store)
    ensures Heard(c, Next(c, w, a).store)
  {
    hide Next;
    Callbacks.SessionGrows(c, w, a, UserKey(c));
  }

  lemma {:induction false} HeardOrUntouched(c: Config, w: World, actions: seq<Action>)
    requires Safety.Initial(c, w) && Fresh(c, w) && Safety.AllEnabled(c, w, actions)
    ensures Heard(c, Safety.After(c, w, actions).store) || Untouched(c, Safety.After(c, w, actions))
    decreases |actions|
  {
    if actions != [] {
      var rest, a := actions[..|actions| - 1], actions[|actions| - 1];
      Traces.RunEnds(c, w, actions);
      Safety.InitiallyInv(c, w);
      Safety.RunsKeepInv(c, w, rest);
      HeardOrUntouched(c, w, rest);
      hide Inv, Enabled, Next, Safety.Initial, Safety.AllEnabled, Safety.After, Untouched, Heard;
      if Heard(c, Safety.After(c, w, rest).store) {
        HeardStays(c, Safety.After(c, w, rest), a);
      } else {
        StaysUntouched(c, Safety.After(c, w, rest), a);
      }
    }
  }

  /** A turn of the Task is past its entry, or came to anything but a cancellation. */
  ghost predicate TurnIsPastEntry(w: World, r: nat) {
    || (Turn(r) in w.bodies && (w.bodies[Turn(r)].body.Finished? ==> !w.bodies[Turn(r)].body.value.Turned? || !w.bodies[Turn(r)].body.value.verdict.Canceled?))
    || (Turn(r) in w.journal && w.journal[Turn(r)].Returned?
        && (w.journal[Turn(r)].value.Turned? ==> !w.journal[Turn(r)].value.verdict.Canceled?))
  }

  lemma PastEntryIsTouched(c: Config, w: World, r: nat)
    requires TurnIsPastEntry(w, r)
    ensures !Untouched(c, w)
  {
    var body := if Turn(r) in w.bodies && !CalledOff(w.bodies[Turn(r)].body) then w.bodies[Turn(r)].body else Finished(w.journal[Turn(r)].value);
    assert HasBody(w, Turn(r), body) && !CalledOff(body);
  }

  /**
   * Over every run that starts without the Task's messages: when a turn is past its
   * entry, or the Task has an answer, an acknowledgment or a row, the user's message
   * is stored, with the Task's text.
   */
  lemma UserIsHeardFirst(c: Config, w: World, actions: seq<Action>)
    requires Safety.Initial(c, w) && Fresh(c, w) && Safety.AllEnabled(c, w, actions)
    ensures
      var v := Safety.After(c, w, actions);
      (exists r: nat :: TurnIsPastEntry(v, r) || History.AckKey(c.taskId, r) in v.store.session)
        || History.FinalKey(c.taskId) in v.store.session
        || (exists id :: id in v.store.subtasks.rows && v.store.subtasks.rows[id].taskId == c.taskId)
      ==> History.UserKey(c.taskId) in v.store.session && v.store.session[History.UserKey(c.taskId)] == c.text
  {
    HeardOrUntouched(c, w, actions);
    hide Safety.Initial, Safety.AllEnabled, Safety.After;
    var v := Safety.After(c, w, actions);
    forall r: nat | TurnIsPastEntry(v, r)
      ensures !Untouched(c, v)
    {
      PastEntryIsTouched(c, v, r);
    }
    forall id | id in v.store.subtasks.rows && v.store.subtasks.rows[id].taskId == c.taskId
      ensures !Untouched(c, v)
    {
      assert id in Of(c, v.store, v.store.subtasks.rows[id].round);
    }
  }

  /** And it never changes: every message the Session holds is there, word for word, after every continuation. */
  lemma {:induction false} MessagesStay(c: Config, w: World, actions: seq<Action>, i: nat, k: History.Key)
    requires Safety.AllEnabled(c, w, actions) && i <= |actions|
    requires k in Traces.Before(c, w, actions, i).store.session
    ensures k in Safety.After(c, w, actions).store.session
    ensures Safety.After(c, w, actions).store.session[k] == Traces.Before(c, w, actions, i).store.session[k]
    decreases |actions|
  {
    if i < |actions| {
      hide Enabled, Next, Safety.AllEnabled, Safety.After;
      var n := |actions| - 1;
      assert actions[..n][..i] == actions[..i];
      Traces.RunEnds(c, w, actions);
      MessagesStay(c, w, actions[..n], i, k);
      Callbacks.SessionGrows(c, Safety.After(c, w, actions[..n]), actions[n], k);
    } else {
      assert actions[..i] == actions;
    }
  }
}
