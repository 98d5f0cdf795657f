/**
 * The machine together with one subtask's child: what the child answers is what the
 * chunk steps receive. So the Workflow's give-up on chunks is never asked for.
 */
module Children {
  import opened Wrappers
  import opened Workflow
  import opened Agent
  import opened Protocol
  import Facet
  import Replay
  import Safety
  import Subtasks
  import Tasks

  /** The child that serves a subtask, by the request it is sent and the budget of that request. */
  datatype Service = Service(id: nat, fingerprint: string, limits: Facet.Limits)

  /** `calls`: what the child was sent since it was made. */
  datatype Joint = Joint(world: World, calls: seq<Facet.Call>)

  datatype Move = Move(action: Action, call: Option<Facet.Call>)

  function Blank(): Facet.Child {
    Facet.Child(None, None)
  }

  /** A chunk step of the subtask waits for the child. */
  predicate Waits(w: World, id: nat, n: StepName) {
    n.Execute? && n.id == id && n in w.bodies && w.bodies[n].body.Executing?
  }

  predicate Returns(w: World, id: nat, a: Action) {
    a.Continue? && Waits(w, id, a.name)
  }

  /** A call that throws, or that is lost, ends the attempt. */
  predicate Fails(w: World, id: nat, a: Action) {
    a.Crash? && Waits(w, id, a.name)
  }

  /** The claim of a pending row deletes whatever child there was. */
  predicate Claims(w: World, id: nat, a: Action) {
    && a.Start? && a.call.name.Execute? && a.call.name.id == id
    && id in w.store.subtasks.rows && w.store.subtasks.rows[id].status.Pending?
  }

  /** What the step receives is what the child answered; only a cancellation interrupts a child. */
  ghost predicate Fits(c: Config, w: World, answer: Facet.Answer, chunk: Chunk) {
    match answer
    case Yielded(interrupted) => chunk.Yielded? && (interrupted ==> Tasks.IsCanceled(w.store.tasks, c.taskId))
    case Replayed(_) => chunk.Ended?
    case Done(_) => chunk.Ended?
    case _ => false
  }

  ghost predicate Sent(v: Service, x: Joint, call: Facet.Call) {
    call.request.fingerprint == v.fingerprint && Facet.Proper(call, v.limits, Facet.After(Blank(), x.calls))
  }

  ghost predicate MayMove(c: Config, v: Service, x: Joint, m: Move) {
    && Enabled(c, x.world, m.action)
    && (m.call.Some? ==> Sent(v, x, m.call.value) && (Returns(x.world, v.id, m.action) || Fails(x.world, v.id, m.action)))
    && (Returns(x.world, v.id, m.action) ==>
          m.call.Some? && Fits(c, x.world, Facet.Execute(Facet.After(Blank(), x.calls), m.call.value).answer, m.action.oracle.chunk))
  }

  function Moved(c: Config, v: Service, x: Joint, m: Move): Joint {
    Joint(Next(c, x.world, m.action),
          if Claims(x.world, v.id, m.action) then []
          else if m.call.Some? then x.calls + [m.call.value] else x.calls)
  }

  // ---- chunks that did not finish, and the yields behind them -------------------------------------

  predicate OpenEnded(body: Body) {
    body.Finished? && body.value != Flag(true)
  }

  /** A chunk that answered, recorded or not, that there is more to do. */
  ghost predicate UndoneAt(w: World, id: nat, chunk: nat) {
    || Replay.NotDone(w.journal, id, chunk)
    || (Execute(id, chunk) in w.bodies && OpenEnded(w.bodies[Execute(id, chunk)].body))
  }

  ghost function Undone(w: World, id: nat): set<nat> {
    set chunk: nat | chunk < MAX_CHUNKS_PER_BRANCH && UndoneAt(w, id, chunk)
  }

  ghost function YieldsOf(calls: seq<Facet.Call>): nat {
    Facet.Yields(Facet.Answers(Blank(), calls))
  }

  ghost predicate JointInv(c: Config, v: Service, x: Joint) {
    && Inv(c, x.world)
    && Facet.AllProper(Blank(), x.calls, v.limits)
    && |Undone(x.world, v.id)| <= YieldsOf(x.calls)
  }

  /** A call adds its own answer. */
  lemma CallsGrow(v: Service, x: Joint, call: Facet.Call)
    requires Facet.AllProper(Blank(), x.calls, v.limits) && Sent(v, x, call)
    ensures Facet.AllProper(Blank(), x.calls + [call], v.limits)
    ensures
      var answer := Facet.Execute(Facet.After(Blank(), x.calls), call).answer;
      YieldsOf(x.calls + [call]) == YieldsOf(x.calls) + if answer == Facet.Yielded(false) then 1 else 0
  {
    hide Facet.Execute, Facet.Proper;
    var calls := x.calls + [call];
    assert calls[..|calls| - 1] == x.calls;
    var answers := Facet.Answers(Blank(), calls);
    assert answers[..|answers| - 1] == Facet.Answers(Blank(), x.calls);
  }

  /** No action but the child's return makes a chunk undone, and that one only the chunk it belongs to. */
  lemma UndoneMoves(c: Config, w: World, a: Action, id: nat, chunk: nat)
    requires Enabled(c, w, a) && UndoneAt(Next(c, w, a), id, chunk)
    ensures UndoneAt(w, id, chunk) || (Returns(w, id, a) && a.name == Execute(id, chunk) && a.oracle.chunk.Yielded?)
    ensures Returns(w, id, a) && !UndoneAt(w, id, chunk) ==> !Tasks.IsCanceled(w.store.tasks, w.bodies[a.name].body.taskId)
  {
    hide Agent.HostSave, Agent.CancelTask, Subtasks.Apply, EnterTurn, AppendDecision, CommitDecision, Legal, Calls;
    var n := Execute(id, chunk);
    match a
    case Start(call, o) =>
      if call.name == n {
        PreparingIsNotUndone(w.store, id, o);
      }
    case Continue(m, o) =>
      if m == n && !Waits(w, id, n) {
        PersistingIsNotUndone(c, w.store, n, w.bodies[n].body, o);
      }
    case _ =>
  }

  lemma PreparingIsNotUndone(s: Store, id: nat, o: Oracle)
    ensures var body := PrepareChunk(s, id, o.resolved, o.now).body; body.Some? ==> !OpenEnded(body.value)
  {}

  lemma PersistingIsNotUndone(c: Config, s: Store, n: StepName, body: Body, o: Oracle)
    requires n.Execute? && !body.Executing?
    ensures var next := Onwards(c, s, n, body, o).body; next.Some? ==> !OpenEnded(next.value)
  {}

  /** What a child's return leaves undone has a yield of its own behind it. */
  lemma ReturnCounts(c: Config, v: Service, x: Joint, m: Move)
    requires JointInv(c, v, x) && MayMove(c, v, x, m) && m.call.Some?
    ensures |Undone(Next(c, x.world, m.action), v.id)| <= YieldsOf(x.calls + [m.call.value])
  {
    var w, answer := x.world, Facet.Execute(Facet.After(Blank(), x.calls), m.call.value).answer;
    CallsGrow(v, x, m.call.value);
    if Returns(w, v.id, m.action) {
      FlightKnown(c, w, m.action.name);
    }
    hide Inv, Next, Facet.Execute, Facet.Proper, Enabled, UndoneAt;
    var before, after := Undone(w, v.id), Undone(Next(c, w, m.action), v.id);
    if answer == Facet.Yielded(false) && Returns(w, v.id, m.action) {
      forall chunk | chunk in after
        ensures chunk in before + {m.action.name.chunk}
      {
        UndoneMoves(c, w, m.action, v.id, chunk);
      }
      Subtasks.SubsetSize(after, before + {m.action.name.chunk});
      assert |before + {m.action.name.chunk}| <= |before| + 1;
    } else {
      forall chunk | chunk in after
        ensures chunk in before
      {
        UndoneMoves(c, w, m.action, v.id, chunk);
      }
      Subtasks.SubsetSize(after, before);
    }
  }

  /** A row that is still pending has had no chunk. */
  lemma PendingHasNoChunks(c: Config, w: World, id: nat)
    requires Inv(c, w) && id in w.store.subtasks.rows && w.store.subtasks.rows[id].status.Pending?
    ensures Undone(w, id) == {}
  {
    forall chunk | UndoneAt(w, id, chunk)
      ensures Claimed(w.store, id)
    {
      var n := Execute(id, chunk);
      if n in w.bodies {
        FlightKnown(c, w, n);
      } else {
        Safety.RecordKnown(c, w, n);
      }
    }
  }

  lemma MoveKeepsJointInv(c: Config, v: Service, x: Joint, m: Move)
    requires JointInv(c, v, x) && MayMove(c, v, x, m)
    ensures JointInv(c, v, Moved(c, v, x, m))
  {
    var w, after := x.world, Next(c, x.world, m.action);
    StepKeepsInv(c, w, m.action);
    if m.call.Some? {
      ReturnCounts(c, v, x, m);
      CallsGrow(v, x, m.call.value);
    } else {
      forall chunk | chunk in Undone(after, v.id)
        ensures chunk in Undone(w, v.id)
      {
        UndoneMoves(c, w, m.action, v.id, chunk);
      }
      Subtasks.SubsetSize(Undone(after, v.id), Undone(w, v.id));
      if Claims(w, v.id, m.action) {
        PendingHasNoChunks(c, w, v.id);
      }
    }
  }

  ghost predicate AllMay(c: Config, v: Service, x: Joint, moves: seq<Move>)
    decreases moves
  {
    moves == [] || (MayMove(c, v, x, moves[0]) && AllMay(c, v, Moved(c, v, x, moves[0]), moves[1..]))
  }

  function After(c: Config, v: Service, x: Joint, moves: seq<Move>): Joint
    decreases moves
  {
    if moves == [] then x else After(c, v, Moved(c, v, x, moves[0]), moves[1..])
  }

  lemma {:induction false} RunsKeepJointInv(c: Config, v: Service, x: Joint, moves: seq<Move>)
    requires JointInv(c, v, x) && AllMay(c, v, x, moves)
    ensures JointInv(c, v, After(c, v, x, moves))
    decreases moves
  {
    hide JointInv, MayMove, Moved;
    if moves != [] {
      MoveKeepsJointInv(c, v, x, moves[0]);
      RunsKeepJointInv(c, v, Moved(c, v, x, moves[0]), moves[1..]);
    }
  }

  lemma InitiallyJointInv(c: Config, v: Service, w: World)
    requires Safety.Initial(c, w)
    ensures JointInv(c, v, Joint(w, []))
  {
    Safety.InitiallyInv(c, w);
    assert Undone(w, v.id) == {};
  }

  /** The give-up lies behind forty undone chunks, and so behind forty yields of one child. */
  lemma GivingUpNeedsFortyYields(c: Config, v: Service, x: Joint)
    requires JointInv(c, v, x)
    requires Call(FailBranch(v.id), Because(TooManyChunks)) in Calls(c, x.world.journal)
    ensures YieldsOf(x.calls) >= MAX_CHUNKS_PER_BRANCH
  {
    var j, giveUp := x.world.journal, Call(FailBranch(v.id), Because(TooManyChunks));
    CallsAreSourced(c, j, giveUp);
    Replay.GivingUpNeedsEveryChunk(j, v.id, 0);
    forall chunk: nat | chunk < MAX_CHUNKS_PER_BRANCH
      ensures chunk in Undone(x.world, v.id)
    {
      assert Replay.NotDone(j, v.id, chunk);
    }
    var all := Subtasks.Interval(0, MAX_CHUNKS_PER_BRANCH);
    Subtasks.SubsetSize(all, Undone(x.world, v.id));
  }

  /**
   * Over every run of the machine with the subtask's child, under any crashes,
   * retries and cancellations: with a budget of at most forty turns the Workflow
   * never gives the branch up for its chunks.
   */
  lemma BranchNeverRunsOutOfChunks(c: Config, v: Service, w: World, moves: seq<Move>)
    requires Safety.Initial(c, w) && AllMay(c, v, Joint(w, []), moves)
    requires forall fp :: v.limits(fp) <= MAX_CHUNKS_PER_BRANCH
    ensures Call(FailBranch(v.id), Because(TooManyChunks)) !in Calls(c, After(c, v, Joint(w, []), moves).world.journal)
  {
    InitiallyJointInv(c, v, w);
    RunsKeepJointInv(c, v, Joint(w, []), moves);
    var x := After(c, v, Joint(w, []), moves);
    if Call(FailBranch(v.id), Because(TooManyChunks)) in Calls(c, x.world.journal) {
      GivingUpNeedsFortyYields(c, v, x);
      Facet.YieldsAreBounded(x.calls, v.limits);
    }
  }
}
