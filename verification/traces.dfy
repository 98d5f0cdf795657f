/**
 * What the journal tells of the run behind it: for each step whose body is one
 * segment, what its last start met is what was recorded.
 */
module Traces {
  import opened Wrappers
  import opened Workflow
  import opened Agent
  import opened Protocol
  import Asked
  import Replay
  import Safety
  import Silence
  import Subtasks
  import Tasks

  // ---- runs by their last action ------------------------------------------------------------------

  lemma RunGoesOn(c: Config, w: World, actions: seq<Action>, a: Action)
    ensures Safety.AllEnabled(c, w, actions + [a]) <==> Safety.AllEnabled(c, w, actions) && Enabled(c, Safety.After(c, w, actions), a)
    ensures Safety.After(c, w, actions + [a]) == Next(c, Safety.After(c, w, actions), a)
  {
    hide Enabled, Next;
    Safety.RunsCompose(c, w, actions, [a]);
    var v := Safety.After(c, w, actions);
    assert [a][1..] == [];
    assert Safety.AllEnabled(c, v, [a]) <==> Enabled(c, v, a) && Safety.AllEnabled(c, Next(c, v, a), []);
    assert Safety.After(c, v, [a]) == Safety.After(c, Next(c, v, a), []);
  }

  /** A run, cut before its last action. */
  lemma RunEnds(c: Config, w: World, actions: seq<Action>)
    requires actions != [] && Safety.AllEnabled(c, w, actions)
    ensures
      var rest, last := actions[..|actions| - 1], actions[|actions| - 1];
      && Safety.AllEnabled(c, w, rest) && Enabled(c, Safety.After(c, w, rest), last)
      && Safety.After(c, w, actions) == Next(c, Safety.After(c, w, rest), last)
  {
    hide Enabled, Next, Safety.AllEnabled, Safety.After;
    var rest, last := actions[..|actions| - 1], actions[|actions| - 1];
    RunGoesOn(c, w, rest, last);
    assert rest + [last] == actions;
  }

  lemma TaskKeepsInv(c: Config, w: World, actions: seq<Action>)
    requires Safety.Initial(c, w) && Safety.AllEnabled(c, w, actions)
    ensures Inv(c, Safety.After(c, w, actions))
  {
    hide Inv, Safety.Initial, Safety.AllEnabled, Safety.After;
    Safety.InitiallyInv(c, w);
    Safety.RunsKeepInv(c, w, actions);
  }

  /** The same of a Task's run, whose every world satisfies the invariant. */
  lemma TaskRunEnds(c: Config, w: World, actions: seq<Action>)
    requires actions != [] && Safety.Initial(c, w) && Safety.AllEnabled(c, w, actions)
    ensures
      var rest, last := actions[..|actions| - 1], actions[|actions| - 1];
      && Safety.AllEnabled(c, w, rest) && Inv(c, Safety.After(c, w, rest)) && Enabled(c, Safety.After(c, w, rest), last)
      && Safety.After(c, w, actions) == Next(c, Safety.After(c, w, rest), last) && rest + [last] == actions
  {
    hide Inv, Enabled, Next, Safety.Initial, Safety.AllEnabled, Safety.After;
    RunEnds(c, w, actions);
    TaskKeepsInv(c, w, actions[..|actions| - 1]);
  }

  /** The world before the i-th action. */
  function Before(c: Config, w: World, actions: seq<Action>, i: nat): World
    requires i <= |actions|
  {
    Safety.After(c, w, actions[..i])
  }

  lemma {:induction false} RunsHaveMiddles(c: Config, w: World, actions: seq<Action>, i: nat)
    requires Safety.AllEnabled(c, w, actions) && i <= |actions|
    ensures Safety.AllEnabled(c, w, actions[..i])
    ensures i < |actions| ==> Enabled(c, Before(c, w, actions, i), actions[i])
    ensures i < |actions| ==> Before(c, w, actions, i + 1) == Next(c, Before(c, w, actions, i), actions[i])
    decreases |actions|
  {
    hide Enabled, Next, Safety.AllEnabled, Safety.After;
    if i == |actions| {
      assert actions[..i] == actions;
    } else {
      var n := |actions| - 1;
      RunEnds(c, w, actions);
      if i < n {
        RunsHaveMiddles(c, w, actions[..n], i);
        assert actions[..n][..i] == actions[..i] && actions[..n][..i + 1] == actions[..i + 1];
      } else {
        assert actions[..n + 1] == actions;
      }
    }
  }

  // ---- the last start of a step ----------------------------------------------------------------------

  /** The i-th action starts the step, and no later one does. */
  ghost predicate LastStart(actions: seq<Action>, i: nat, n: StepName) {
    && i < |actions| && actions[i].Start? && actions[i].call.name == n
    && forall k :: i < k < |actions| ==> !(actions[k].Start? && actions[k].call.name == n)
  }

  /** A value that a step has come to, recorded or not. */
  ghost predicate CameTo(w: World, n: StepName, v: Value) {
    || (n in w.journal && w.journal[n] == Returned(v))
    || (n in w.bodies && w.bodies[n].body == Finished(v))
  }

  predicate InOneSegment(n: StepName) {
    !n.Turn? && !n.Execute?
  }

  /** The step was last started there, was asked for then, and its one segment came to the value. */
  ghost predicate StartedWith(c: Config, w: World, actions: seq<Action>, i: nat, n: StepName, v: Value) {
    && LastStart(actions, i, n)
    && actions[i].call in Calls(c, Before(c, w, actions, i).journal)
    && Opening(c, Before(c, w, actions, i).store, actions[i].call, actions[i].oracle).body == Some(Finished(v))
  }

  /** A step that starts has no record, and one that goes on is a turn or a chunk. */
  lemma StepsAsTheyMove(c: Config, w: World, a: Action)
    requires Inv(c, w) && Enabled(c, w, a)
    ensures a.Start? ==> a.call.name !in w.journal
    ensures a.Continue? ==> !InOneSegment(a.name)
  {
    hide Calls, Legal, Charged;
    if a.Continue? {
      FlightKnown(c, w, a.name);
      hide Inv;
    }
  }

  /** A segment that lands gives its own step a value, if any. */
  lemma LandingKeepsValues(w: World, name: StepName, input: Input, seg: Segment, n: StepName, v: Value)
    requires CameTo(Landed(w, name, input, seg), n, v)
    ensures n != name ==> CameTo(w, n, v)
    ensures n == name && n !in w.journal ==> seg.body == Some(Finished(v))
  {}

  lemma StartKeepsValues(c: Config, w: World, call: Call, o: Oracle, n: StepName, v: Value)
    requires CameTo(Next(c, w, Start(call, o)), n, v)
    ensures n != call.name ==> CameTo(w, n, v)
    ensures n == call.name && n !in w.journal ==> Opening(c, w.store, call, o).body == Some(Finished(v))
  {
    hide Opening, Landed;
    LandingKeepsValues(w, call.name, call.input, Opening(c, w.store, call, o), n, v);
  }

  /** A value is new only where its step starts. */
  lemma ValuesMove(c: Config, w: World, a: Action, n: StepName, v: Value)
    requires Inv(c, w) && Enabled(c, w, a) && InOneSegment(n) && CameTo(Next(c, w, a), n, v)
    ensures
      || (CameTo(w, n, v) && !(a.Start? && a.call.name == n))
      || (a.Start? && a.call.name == n && Opening(c, w.store, a.call, a.oracle).body == Some(Finished(v)))
  {
    StepsAsTheyMove(c, w, a);
    hide Inv, Enabled, Opening, Onwards, Agent.HostSave, Agent.CancelTask, Agent.ResolveRunning, Subtasks.Apply, Calls, InOneSegment, Landed;
    match a
    case Start(call, o) =>
      StartKeepsValues(c, w, call, o, n, v);
      hide Next;
    case Continue(name, o) =>
      if name in w.bodies {
        LandingKeepsValues(w, name, w.bodies[name].input, Onwards(c, w.store, name, w.bodies[name].body, o), n, v);
      }
    case _ =>
  }

  lemma LaterStarted(c: Config, w: World, actions: seq<Action>, a: Action, i: nat, n: StepName, v: Value)
    requires StartedWith(c, w, actions, i, n, v) && !(a.Start? && a.call.name == n)
    ensures StartedWith(c, w, actions + [a], i, n, v)
  {
    hide Safety.After, Opening, Calls;
    assert (actions + [a])[..i] == actions[..i];
  }

  lemma StartedHere(c: Config, w: World, rest: seq<Action>, a: Action, n: StepName, v: Value)
    requires a.Start? && a.call.name == n && a.call in Calls(c, Safety.After(c, w, rest).journal)
    requires Opening(c, Safety.After(c, w, rest).store, a.call, a.oracle).body == Some(Finished(v))
    ensures StartedWith(c, w, rest + [a], |rest|, n, v)
  {
    hide Safety.After, Opening, Calls;
    assert (rest + [a])[..|rest|] == rest;
  }

  /** A run's last action, and where it leaves a value of such a step. */
  lemma LastMove(c: Config, w: World, rest: seq<Action>, a: Action, n: StepName, v: Value)
    requires Safety.Initial(c, w) && Safety.AllEnabled(c, w, rest + [a]) && InOneSegment(n)
    requires CameTo(Safety.After(c, w, rest + [a]), n, v)
    ensures Safety.AllEnabled(c, w, rest)
    ensures
      || (CameTo(Safety.After(c, w, rest), n, v) && !(a.Start? && a.call.name == n))
      || (a.Start? && a.call.name == n && StartedWith(c, w, rest + [a], |rest|, n, v))
  {
    RunGoesOn(c, w, rest, a);
    Safety.InitiallyInv(c, w);
    hide Inv, Enabled, Next, Safety.Initial, Safety.AllEnabled, Safety.After, Opening, InOneSegment, CameTo, StartedWith;
    var before := Safety.After(c, w, rest);
    Safety.RunsKeepInv(c, w, rest);
    ValuesMove(c, before, a, n, v);
    if a.Start? && a.call.name == n {
      StartIsAsked(c, before, a);
      StartedHere(c, w, rest, a, n, v);
    }
  }

  lemma {:induction false} ValuesAreStarted(c: Config, w: World, actions: seq<Action>, n: StepName, v: Value)
    requires Safety.Initial(c, w) && Safety.AllEnabled(c, w, actions) && InOneSegment(n)
    requires CameTo(Safety.After(c, w, actions), n, v)
    ensures exists i: nat :: StartedWith(c, w, actions, i, n, v)
    decreases |actions|
  {
    if actions != [] {
      var rest, a := actions[..|actions| - 1], actions[|actions| - 1];
      assert rest + [a] == actions;
      hide Safety.AllEnabled, Safety.After, InOneSegment, CameTo, StartedWith, Safety.Initial;
      LastMove(c, w, rest, a, n, v);
      if !(a.Start? && a.call.name == n) {
        ValuesAreStarted(c, w, rest, n, v);
        var i: nat :| StartedWith(c, w, rest, i, n, v);
        LaterStarted(c, w, rest, a, i, n, v);
      }
    }
  }

  lemma StartIsAsked(c: Config, w: World, a: Action)
    requires Enabled(c, w, a) && a.Start?
    ensures a.call in Calls(c, w.journal)
  {}

  lemma ExtendsOn(j: Journal, k: Journal, l: Journal)
    requires Replay.Extends(j, k) && Replay.Extends(k, l)
    ensures Replay.Extends(j, l)
  {}

  /** What was recorded before an action is recorded at the end. */
  lemma {:induction false} JournalsExtend(c: Config, w: World, actions: seq<Action>, i: nat)
    requires Inv(c, w) && Safety.AllEnabled(c, w, actions) && i <= |actions|
    ensures Replay.Extends(Before(c, w, actions, i).journal, Safety.After(c, w, actions).journal)
    decreases |actions|
  {
    if i < |actions| {
      hide Inv, Enabled, Next, Safety.AllEnabled, Safety.After, Replay.Extends;
      var n := |actions| - 1;
      var before := Safety.After(c, w, actions[..n]);
      RunEnds(c, w, actions);
      Safety.RunsKeepInv(c, w, actions[..n]);
      Silence.JournalExtends(c, before, actions[n]);
      JournalsExtend(c, w, actions[..n], i);
      assert actions[..n][..i] == actions[..i];
      ExtendsOn(Before(c, w, actions, i).journal, before.journal, Safety.After(c, w, actions).journal);
    } else {
      assert actions[..i] == actions;
    }
  }

  // ---- the clock ---------------------------------------------------------------------------------------

  /** Where the Task's clock was last started and a round's deadline last read, and what the reading says. */
  ghost predicate ReadsTheClock(c: Config, actions: seq<Action>, start: nat, read: nat, r: nat, overdue: bool) {
    && LastStart(actions, start, Started) && LastStart(actions, read, Deadline(r))
    && (overdue <==> actions[read].oracle.now >= actions[start].oracle.now + c.limits.maxWallMs)
  }

  lemma StartIsTheClock(c: Config, w: World, actions: seq<Action>, v: Value) returns (start: nat)
    requires Safety.Initial(c, w) && Safety.AllEnabled(c, w, actions) && CameTo(Safety.After(c, w, actions), Started, v)
    ensures LastStart(actions, start, Started) && v == Instant(actions[start].oracle.now)
  {
    hide Safety.Initial, Safety.After, Safety.AllEnabled, Calls;
    ValuesAreStarted(c, w, actions, Started, v);
    start :| StartedWith(c, w, actions, start, Started, v);
  }

  /** What a start of a deadline step reads. */
  lemma DeadlineReads(c: Config, s: Store, j: Journal, call: Call, o: Oracle, v: Value)
    requires call in Calls(c, j) && call.name.Deadline?
    requires Opening(c, s, call, o).body == Some(Finished(v))
    ensures Asked.Underway(j) && v == Flag(o.now - j[Started].value.ms >= c.limits.maxWallMs)
  {
    Asked.DeadlineInput(j, c.limits, call);
    hide Run;
  }

  /**
   * A round's deadline is recorded as passed exactly when, at its step's last start,
   * the clock stood at or past the Task's wall-clock limit behind the recorded start.
   */
  lemma DeadlineIsTheClock(c: Config, w: World, actions: seq<Action>, r: nat, v: Value)
    requires Safety.Initial(c, w) && Safety.AllEnabled(c, w, actions)
    requires CameTo(Safety.After(c, w, actions), Deadline(r), v)
    ensures v.Flag? && exists start: nat, read: nat :: ReadsTheClock(c, actions, start, read, r, v.b)
  {
    ValuesAreStarted(c, w, actions, Deadline(r), v);
    Safety.InitiallyInv(c, w);
    hide Inv, Safety.Initial, Safety.After, Safety.AllEnabled, Calls, Opening;
    var read: nat :| StartedWith(c, w, actions, read, Deadline(r), v);
    var j := Before(c, w, actions, read).journal;
    DeadlineReads(c, Before(c, w, actions, read).store, j, actions[read].call, actions[read].oracle, v);
    JournalsExtend(c, w, actions, read);
    var start := StartIsTheClock(c, w, actions, Instant(j[Started].value.ms));
    assert ReadsTheClock(c, actions, start, read, r, v.b);
  }

  /** And a round is final exactly when that was so, or the rounds before it used the turns up. */
  lemma FinalExactlyWhen(c: Config, w: World, actions: seq<Action>, call: Call)
    requires Safety.Initial(c, w) && Safety.AllEnabled(c, w, actions)
    requires call in Calls(c, Safety.After(c, w, actions).journal) && call.name.Turn?
    ensures
      var r, used := call.name.round, Replay.UsedBefore(Safety.After(c, w, actions).journal, call.name.round);
      && call.input.Turning? && call.input.remaining == c.limits.maxTurns - used
      && exists start: nat, read: nat, overdue :: ReadsTheClock(c, actions, start, read, r, overdue)
           && (call.input.mode.Final? <==> overdue || used >= c.limits.maxTurns)
  {
    hide Safety.Initial, Safety.After, Safety.AllEnabled, Run, Replay.UsedBefore;
    var j, r := Safety.After(c, w, actions).journal, call.name.round;
    Asked.TurnInput(j, c.limits, call);
    DeadlineIsTheClock(c, w, actions, r, j[Deadline(r)].value);
    var start: nat, read: nat :| ReadsTheClock(c, actions, start, read, r, j[Deadline(r)].value.b);
  }

  // ---- the first step, the scan and the delivery ----------------------------------------------------------

  ghost predicate CanceledRow(c: Config, s: Store) {
    c.taskId in s.tasks && s.tasks[c.taskId].task.state == Tasks.Canceled
  }

  /** The first step goes on exactly when it did not find the Task canceled. */
  lemma WorkingTells(c: Config, w: World, actions: seq<Action>, v: Value)
    requires Safety.Initial(c, w) && Safety.AllEnabled(c, w, actions) && CameTo(Safety.After(c, w, actions), Working, v)
    ensures v.Flag? && exists i: nat :: LastStart(actions, i, Working) && (v.b <==> !CanceledRow(c, Before(c, w, actions, i).store))
  {
    hide Safety.Initial, Safety.After, Safety.AllEnabled, Calls;
    ValuesAreStarted(c, w, actions, Working, v);
    var i: nat :| StartedWith(c, w, actions, i, Working, v);
  }

  /** A scan of the round in this store. */
  ghost predicate ScansRound(c: Config, s: Store, r: nat, v: Value) {
    && v.Scanned?
    && (v.canceled <==> CanceledRow(c, s))
    && (v.canceled ==> v.ids == {})
    && (!v.canceled ==> forall id :: id in v.ids <==>
          && id in s.subtasks.rows && s.subtasks.rows[id].taskId == c.taskId && s.subtasks.rows[id].round == r
          && (s.subtasks.rows[id].status == Subtasks.Pending || s.subtasks.rows[id].status == Subtasks.Running))
  }

  /** A scan records the cancellation, or exactly the round's rows that were pending or running when it last started. */
  lemma ScanTells(c: Config, w: World, actions: seq<Action>, r: nat, v: Value)
    requires Safety.Initial(c, w) && Safety.AllEnabled(c, w, actions) && CameTo(Safety.After(c, w, actions), Scan(r), v)
    ensures exists i: nat :: LastStart(actions, i, Scan(r)) && ScansRound(c, Before(c, w, actions, i).store, r, v)
  {
    hide Safety.Initial, Safety.After, Safety.AllEnabled, Calls;
    ValuesAreStarted(c, w, actions, Scan(r), v);
    var i: nat :| StartedWith(c, w, actions, i, Scan(r), v);
    assert ScansRound(c, Before(c, w, actions, i).store, r, v);
  }

  /** The Task a delivery of the outcome saves, in the host's words when it is a failure, at this instant. */
  ghost predicate Says(c: Config, t: Tasks.Task, outcome: Outcome, words: string, now: int) {
    && t.id == c.taskId && t.contextId == c.contextId && t.timestamp == now
    && (if outcome.Answer? then t.state == Tasks.Completed && t.message == Some(outcome.reply)
        else t.state == Tasks.Failed && t.message == Some(words))
  }

  /** The guarded write turns a terminal Task in this state down. */
  ghost predicate TurnsDown(c: Config, s: Store, completed: bool) {
    && c.taskId in s.tasks
    && var state := s.tasks[c.taskId].task.state;
       || state == Tasks.Canceled || state == Tasks.Rejected
       || (state == Tasks.Completed && !completed) || (state == Tasks.Failed && completed)
  }

  /** What a delivery's last start met, and what it came to. */
  ghost predicate DeliversAs(c: Config, w: World, actions: seq<Action>, i: nat, a: bool, v: Value) {
    && LastStart(actions, i, Complete(a)) && actions[i].call.input.Delivering?
    && var j, s, outcome := Before(c, w, actions, i).journal, Before(c, w, actions, i).store, actions[i].call.input.outcome;
       && (if a then outcome == AbandonedFailure && Asked.Lost(j, c.limits) else Asked.Outcomes(j, c.limits, outcome))
       && v.Saved? && (v.task.None? <==> TurnsDown(c, s, outcome.Answer?))
       && (v.task.Some? ==> Says(c, v.task.value, outcome, actions[i].oracle.words, actions[i].oracle.now))
  }

  lemma SaveTells(c: Config, s: Store, call: Call, o: Oracle, v: Value)
    requires call.name.Complete? && call.input.Delivering?
    requires Opening(c, s, call, o).body == Some(Finished(v))
    ensures v.Saved? && (v.task.None? <==> TurnsDown(c, s, call.input.outcome.Answer?))
    ensures v.task.Some? ==> Says(c, v.task.value, call.input.outcome, o.words, o.now)
  {}

  /**
   * A delivery saves exactly what a round recorded, the answer as a completed Task
   * and every failure as a failed one, unless the row was canceled or already in
   * another terminal state when it last started.
   */
  lemma DeliveryTells(c: Config, w: World, actions: seq<Action>, a: bool, v: Value)
    requires Safety.Initial(c, w) && Safety.AllEnabled(c, w, actions) && CameTo(Safety.After(c, w, actions), Complete(a), v)
    ensures exists i: nat :: DeliversAs(c, w, actions, i, a, v)
  {
    hide Safety.Initial, Safety.After, Safety.AllEnabled, Run, Opening;
    ValuesAreStarted(c, w, actions, Complete(a), v);
    var i: nat :| StartedWith(c, w, actions, i, Complete(a), v);
    Asked.DeliveryInput(Before(c, w, actions, i).journal, c.limits, actions[i].call);
    SaveTells(c, Before(c, w, actions, i).store, actions[i].call, actions[i].oracle, v);
    hide Asked.Lost, Asked.Outcomes;
    assert DeliversAs(c, w, actions, i, a, v);
  }
}
