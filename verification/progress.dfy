/** That the machine does get somewhere: a Task whose first round answers is called back with the answer. */
module Progress {
  import opened Wrappers
  import opened Workflow
  import opened Agent
  import opened Protocol
  import Budget
  import Safety
  import Tasks

  /** A step whose body is one segment: started, then recorded. */
  function Whole(call: Call, o: Oracle): seq<Action> {
    [Start(call, o), Record(call.name)]
  }

  /** Where such a step leaves the world. */
  function Stepped(c: Config, w: World, call: Call, o: Oracle, value: Value): World {
    var seg := Opening(c, w.store, call, o);
    w.(store := seg.store,
       journal := w.journal[call.name := Returned(value)],
       said := if seg.said.Some? then w.said + [seg.said.value] else w.said,
       posted := if call.name.Notify? && call.input.Posting? then w.posted + [call.input.task] else w.posted)
  }

  lemma WholeStep(c: Config, w: World, call: Call, o: Oracle, value: Value)
    requires w.bodies == map[] && call in Calls(c, w.journal) && call.name !in w.journal
    requires Opening(c, w.store, call, o).body == Some(Finished(value))
    ensures Safety.AllEnabled(c, w, Whole(call, o))
    ensures Safety.After(c, w, Whole(call, o)) == Stepped(c, w, call, o, value)
  {
    hide Opening, Calls;
    var actions := Whole(call, o);
    var v := Next(c, w, actions[0]);
    assert actions[1..] == [Record(call.name)] && [Record(call.name)][1..] == [];
    assert v.bodies == map[call.name := Flight(call.input, Finished(value))];
    assert v.bodies - {call.name} == map[];
    assert Enabled(c, w, actions[0]) && Enabled(c, v, Record(call.name));
    assert Safety.AllEnabled(c, v, [Record(call.name)]);
    assert Safety.After(c, v, [Record(call.name)]) == Next(c, v, Record(call.name));
  }

  /** A step that starts stands where its first segment leaves it. */
  lemma StartLands(c: Config, w: World, call: Call, o: Oracle)
    requires call in Calls(c, w.journal) && call.name !in w.journal && call.name !in w.bodies && !call.name.Notify?
    ensures Enabled(c, w, Start(call, o))
    ensures Next(c, w, Start(call, o)) == Landed(w, call.name, call.input, Opening(c, w.store, call, o))
  {
    hide Opening, Calls, Landed;
  }

  /** And one that goes on, where its next segment leaves it. */
  lemma ContinueLands(c: Config, w: World, n: StepName, o: Oracle)
    requires n in w.bodies && !w.bodies[n].body.Finished?
    requires w.bodies[n].body.Inferring? && w.bodies[n].input.Turning? ==>
      Legal(c, w.bodies[n].input.mode, w.bodies[n].input.remaining, o.inference, o.turns)
    ensures Enabled(c, w, Continue(n, o))
    ensures Next(c, w, Continue(n, o)) == Landed(w, n, w.bodies[n].input, Onwards(c, w.store, n, w.bodies[n].body, o))
  {
    hide Onwards, Landed, Legal;
  }

  /** A round's turn: entered, answered by the model, committed, recorded. */
  function TurnActions(call: Call, o: Oracle): seq<Action> {
    [Start(call, o), Continue(call.name, o), Continue(call.name, o), Record(call.name)]
  }

  /** A fresh round gets as far as the model. */
  lemma TurnOpens(c: Config, s: Store, call: Call, o: Oracle)
    requires call.name.Turn? && Of(c, s, call.name.round) == {} && Final(c) !in s.session && !Tasks.IsCanceled(s.tasks, c.taskId)
    ensures
      var seg := Opening(c, s, call, o);
      && seg.body == Some(Inferring) && seg.said == None
      && seg.store.tasks == s.tasks && seg.store.subtasks == s.subtasks && Final(c) !in seg.store.session
  {}

  lemma ReplyAppends(c: Config, s: Store, o: Oracle, reply: string)
    requires o.inference == Replying(reply) && Final(c) !in s.session
    ensures
      var seg := Onwards(c, s, Turn(0), Inferring, o);
      seg.body == Some(Appended(Replying(reply), o.turns)) && seg.store.tasks == s.tasks
  {}

  lemma ReplyCommits(c: Config, s: Store, o: Oracle, reply: string, turns: nat)
    requires !Tasks.IsCanceled(s.tasks, c.taskId)
    ensures
      var seg := Onwards(c, s, Turn(0), Appended(Replying(reply), turns), o);
      seg.body == Some(Finished(Turned(Replied(reply), turns))) && seg.store == s
  {}

  lemma AnsweringTurn(c: Config, w: World, call: Call, o: Oracle, reply: string)
    requires w.bodies == map[] && call in Calls(c, w.journal) && call.name !in w.journal
    requires call.name == Turn(0) && call.input.Turning?
    requires o.inference == Replying(reply) && Legal(c, call.input.mode, call.input.remaining, o.inference, o.turns)
    requires Of(c, w.store, 0) == {} && Final(c) !in w.store.session && !Tasks.IsCanceled(w.store.tasks, c.taskId)
    ensures Safety.AllEnabled(c, w, TurnActions(call, o))
    ensures
      var v := Safety.After(c, w, TurnActions(call, o));
      && v.store.tasks == w.store.tasks && v.bodies == map[] && v.posted == w.posted
      && v.journal == w.journal[Turn(0) := Returned(Turned(Replied(reply), o.turns))]
  {
    hide Calls, Opening, Onwards, Legal, Next, Enabled, Of;
    var n := Turn(0);
    TurnOpens(c, w.store, call, o);
    StartLands(c, w, call, o);
    var w1 := Landed(w, n, call.input, Opening(c, w.store, call, o));
    ReplyAppends(c, w1.store, o, reply);
    ContinueLands(c, w1, n, o);
    var w2 := Landed(w1, n, call.input, Onwards(c, w1.store, n, Inferring, o));
    ReplyCommits(c, w2.store, o, reply, o.turns);
    ContinueLands(c, w2, n, o);
    var w3 := Landed(w2, n, call.input, Onwards(c, w2.store, n, Appended(Replying(reply), o.turns), o));
    assert w3.bodies == map[n := Flight(call.input, Finished(Turned(Replied(reply), o.turns)))];
    RecordLands(c, w3, n);
    FourSteps(c, w, w1, w2, w3, Next(c, w3, Record(n)), TurnActions(call, o));
  }

  /** Recording the one body under way. */
  lemma RecordLands(c: Config, w: World, n: StepName)
    requires w.bodies.Keys == {n} && w.bodies[n].body.Finished?
    ensures Enabled(c, w, Record(n))
    ensures Next(c, w, Record(n)) == w.(bodies := map[], journal := w.journal[n := Returned(w.bodies[n].body.value)])
  {
    assert w.bodies - {n} == map[];
  }

  lemma FourSteps(c: Config, w: World, w1: World, w2: World, w3: World, w4: World, actions: seq<Action>)
    requires |actions| == 4
    requires Enabled(c, w, actions[0]) && w1 == Next(c, w, actions[0])
    requires Enabled(c, w1, actions[1]) && w2 == Next(c, w1, actions[1])
    requires Enabled(c, w2, actions[2]) && w3 == Next(c, w2, actions[2])
    requires Enabled(c, w3, actions[3]) && w4 == Next(c, w3, actions[3])
    ensures Safety.AllEnabled(c, w, actions) && Safety.After(c, w, actions) == w4
  {
    hide Enabled, Next;
    var a1, a2, a3 := actions[1..], actions[2..], actions[3..];
    assert a1[1..] == a2 && a2[1..] == a3 && a3[1..] == [];
    assert Safety.AllEnabled(c, w4, []) && Safety.After(c, w4, []) == w4;
    assert Safety.AllEnabled(c, w3, a3) && Safety.After(c, w3, a3) == w4;
    assert Safety.AllEnabled(c, w2, a2) && Safety.After(c, w2, a2) == w4;
    assert Safety.AllEnabled(c, w1, a1) && Safety.After(c, w1, a1) == w4;
  }

  // ---- the calls along the way ------------------------------------------------------------------

  function J1(): Journal { map[Working := Returned(Flag(true))] }
  function J2(): Journal { J1()[Started := Returned(Instant(0))] }
  function J3(): Journal { J2()[Deadline(0) := Returned(Flag(false))] }
  function J4(reply: string): Journal { J3()[Turn(0) := Returned(Turned(Replied(reply), 1))] }
  function J5(reply: string, task: Tasks.Task): Journal { J4(reply)[Complete(false) := Returned(Saved(Some(task)))] }
  function J6(reply: string, task: Tasks.Task): Journal { J5(reply, task)[Sweep(false) := Returned(Unit)] }

  lemma FirstCalls(c: Config)
    requires c.limits.maxTurns > 0
    ensures Call(Working, Plain) in Calls(c, map[])
    ensures Call(Started, Plain) in Calls(c, J1())
    ensures Call(Deadline(0), Since(0)) in Calls(c, J2())
  {}

  lemma TurnIsAsked(c: Config)
    requires c.limits.maxTurns > 0
    ensures Call(Turn(0), Turning(Budget.Open, c.limits.maxTurns)) in Calls(c, J3())
  {
    var turn := Call(Turn(0), Turning(Budget.Open, c.limits.maxTurns));
    assert turn in OneRound(J3(), c.limits, 0, 0, 0, Budget.Open).calls;
    assert turn in Rounds(J3(), c.limits, 0, 0, 0).calls;
  }

  lemma DeliveryIsAsked(c: Config, j: Journal, reply: string, call: Call)
    requires c.limits.maxTurns > 0
    requires Working in j && j[Working] == Returned(Flag(true)) && Started in j && j[Started] == Returned(Instant(0))
    requires Deadline(0) in j && j[Deadline(0)] == Returned(Flag(false))
    requires Turn(0) in j && j[Turn(0)] == Returned(Turned(Replied(reply), 1))
    requires call in Deliver(j, false, Answer(reply)).calls
    ensures call in Calls(c, j)
  {
    hide Deliver;
    assert call in OneRound(j, c.limits, 0, 0, 0, Budget.Open).calls;
    assert call in Rounds(j, c.limits, 0, 0, 0).calls;
  }

  // ---- the run -----------------------------------------------------------------------------------

  /** A run that leads from one world to another. */
  ghost predicate Leads(c: Config, w: World, actions: seq<Action>, v: World) {
    Safety.AllEnabled(c, w, actions) && Safety.After(c, w, actions) == v
  }

  lemma LeadsOn(c: Config, w: World, first: seq<Action>, v: World, second: seq<Action>, u: World)
    requires Leads(c, w, first, v) && Leads(c, v, second, u)
    ensures Leads(c, w, first + second, u)
  {
    Safety.RunsCompose(c, w, first, second);
  }

  /** The first three steps of a submitted Task. */
  lemma Begins(c: Config, w: World, o: Oracle) returns (actions: seq<Action>, v: World)
    requires Safety.Initial(c, w) && c.limits.maxTurns > 0 && c.limits.maxWallMs > 0 && o.now == 0
    requires c.taskId in w.store.tasks && w.store.tasks[c.taskId].task.state.Submitted?
    ensures Leads(c, w, actions, v)
    ensures v.store == w.store.(tasks := Tasks.WorkingRows(w.store.tasks, c.taskId, 0))
    ensures v.journal == J3() && v.bodies == map[] && v.posted == []
  {
    var working, started, deadline := Call(Working, Plain), Call(Started, Plain), Call(Deadline(0), Since(0));
    FirstCalls(c);
    WholeStep(c, w, working, o, Flag(true));
    var w1 := Stepped(c, w, working, o, Flag(true));
    assert w1.journal == J1();
    WholeStep(c, w1, started, o, Instant(0));
    var w2 := Stepped(c, w1, started, o, Instant(0));
    WholeStep(c, w2, deadline, o, Flag(false));
    v := Stepped(c, w2, deadline, o, Flag(false));
    hide Opening, Calls;
    actions := Whole(working, o) + Whole(started, o) + Whole(deadline, o);
    LeadsOn(c, w, Whole(working, o), w1, Whole(started, o), w2);
    LeadsOn(c, w, Whole(working, o) + Whole(started, o), w2, Whole(deadline, o), v);
  }

  /** The save of an answer to a working Task. */
  lemma Saves(c: Config, w: World, o: Oracle, reply: string) returns (actions: seq<Action>, v: World)
    requires w.journal == J4(reply) && w.bodies == map[] && w.posted == [] && c.limits.maxTurns > 0
    requires Tasks.Keyed(w.store.tasks)
    requires c.taskId in w.store.tasks && w.store.tasks[c.taskId].task.state.Working?
    ensures Leads(c, w, actions, v)
    ensures
      var task := TerminalTask(c, Answer(reply), o.words, o.now);
      v.journal == J5(reply, task) && v.bodies == map[] && v.posted == [] && Tasks.TaskAt(v.store.tasks, c.taskId) == Some(task)
  {
    var task := TerminalTask(c, Answer(reply), o.words, o.now);
    var complete := Call(Complete(false), Delivering(Answer(reply)));
    DeliveryIsAsked(c, J4(reply), reply, complete);
    WholeStep(c, w, complete, o, Saved(Some(task)));
    actions, v := Whole(complete, o), Stepped(c, w, complete, o, Saved(Some(task)));
  }

  /** The sweep and the callback behind it. */
  lemma Notifies(c: Config, w: World, o: Oracle, reply: string, task: Tasks.Task) returns (actions: seq<Action>, v: World)
    requires w.journal == J5(reply, task) && w.bodies == map[] && w.posted == [] && c.limits.maxTurns > 0
    ensures Leads(c, w, actions, v) && v.store == w.store && v.posted == [task]
  {
    var sweep, notify := Call(Sweep(false), Plain), Call(Notify(false), Posting(task));
    DeliveryIsAsked(c, J5(reply, task), reply, sweep);
    WholeStep(c, w, sweep, o, Unit);
    var w1 := Stepped(c, w, sweep, o, Unit);
    DeliveryIsAsked(c, J6(reply, task), reply, notify);
    WholeStep(c, w1, notify, o, Unit);
    v := Stepped(c, w1, notify, o, Unit);
    hide Calls;
    actions := Whole(sweep, o) + Whole(notify, o);
    LeadsOn(c, w, Whole(sweep, o), w1, Whole(notify, o), v);
  }

  /**
   * From every submitted Task nobody has worked on, and for every reply, some run
   * ends with exactly one callback: the completed Task with that reply, which is
   * also its row.
   */
  lemma AnAnswerReachesTheCaller(c: Config, w: World, o: Oracle, reply: string) returns (actions: seq<Action>)
    requires Safety.Initial(c, w) && c.limits.maxTurns > 0 && c.limits.maxWallMs > 0
    requires c.taskId in w.store.tasks && w.store.tasks[c.taskId].task.state.Submitted?
    requires o.now == 0 && o.inference == Replying(reply) && o.turns == 1
    ensures Safety.AllEnabled(c, w, actions)
    ensures
      var v := Safety.After(c, w, actions);
      && v.posted == [Tasks.Task(c.taskId, c.contextId, Tasks.Completed, Some(reply), 0)]
      && Tasks.TaskAt(v.store.tasks, c.taskId) == Some(v.posted[0])
  {
    var beginning, w1 := Begins(c, w, o);
    Tasks.WritersTouchOneRow(w.store.tasks, w.store.tasks[c.taskId].task, c.taskId, 0);
    assert Tasks.TaskAt(w1.store.tasks, c.taskId) == Tasks.MarkWorkingOne(Tasks.TaskAt(w.store.tasks, c.taskId), 0);
    assert Of(c, w1.store, 0) == {};
    TurnIsAsked(c);
    var turn := Call(Turn(0), Turning(Budget.Open, c.limits.maxTurns));
    AnsweringTurn(c, w1, turn, o, reply);
    var w2 := Safety.After(c, w1, TurnActions(turn, o));
    assert w2.journal == J4(reply);
    var saving, w3 := Saves(c, w2, o, reply);
    var notifying, w4 := Notifies(c, w3, o, reply, TerminalTask(c, Answer(reply), o.words, o.now));
    hide Calls, Opening, TurnActions;
    LeadsOn(c, w, beginning, w1, TurnActions(turn, o), w2);
    LeadsOn(c, w, beginning + TurnActions(turn, o), w2, saving, w3);
    LeadsOn(c, w, beginning + TurnActions(turn, o) + saving, w3, notifying, w4);
    actions := beginning + TurnActions(turn, o) + saving + notifying;
  }
}
