/**
 * One Task's Workflow and its Durable Object as a machine.
 *
 * Steps start, run on segment by segment, crash, are recorded or give up, in any
 * order the journal asks for them, beside cancellations, host writes and the work
 * of other Tasks. Attempts of one step follow each other; different steps overlap.
 */
module Protocol {
  import opened Wrappers
  import opened Workflow
  import opened Agent
  import Budget
  import History
  import Replay
  import Subtasks
  import Tasks

  datatype Config = Config(taskId: string, contextId: string, limits: Limits, max: nat, text: string, recovered: string)

  /** A step's body under way, and what it was asked with. */
  datatype Flight = Flight(input: Input, body: Body)

  datatype World = World(
    store: Store, journal: Journal, bodies: map<StepName, Flight>, posted: seq<Tasks.Task>, said: seq<Said>)

  /** What comes from outside a segment: the clock, the host's words, a plugin, a child, a model. */
  datatype Oracle = Oracle(now: int, words: string, resolved: Resolved, chunk: Chunk, inference: Inference, turns: nat)

  datatype Action =
    | Start(call: Call, oracle: Oracle)
    | Continue(name: StepName, oracle: Oracle)
    | Crash(name: StepName)
    | Record(name: StepName)
    | GiveUp(name: StepName)
    | Accept(messageId: string, taskId: string, contextId: string, now: int)
    | CancelTask(taskId: string, now: int)
    | HostSave(task: Tasks.Task, now: int)
    | Resolve(id: nat, now: int)
    | Elsewhere(op: Subtasks.Op)

  function Calls(c: Config, j: Journal): set<Call> {
    Run(j, c.limits).calls
  }

  /** The Task a delivery builds, inside its step, when the step runs. */
  function TerminalTask(c: Config, outcome: Outcome, words: string, now: int): (t: Tasks.Task)
    ensures t.id == c.taskId && Tasks.Terminal(t.state) && !t.state.Canceled?
  {
    match outcome
    case Answer(reply) => Tasks.Task(c.taskId, c.contextId, Tasks.Completed, Some(reply), now)
    case _ => Tasks.Task(c.taskId, c.contextId, Tasks.Failed, Some(words), now)
  }

  /** A step's first segment. */
  function Opening(c: Config, s: Store, call: Call, o: Oracle): Segment {
    match call.name
    case Working => BeginWork(s, c.taskId, o.now)
    case Started => Quiet(s, Finished(Instant(o.now)))
    case Deadline(_) => Quiet(s, Finished(Flag(call.input.Since? && o.now - call.input.startedAt >= c.limits.maxWallMs)))
    case Turn(round) => EnterTurn(s, c.taskId, round, c.text, c.recovered)
    case Scan(round) => ScanRound(s, c.taskId, round)
    case CancelRound(_) => CancelPendingOf(s, c.taskId, o.now)
    case Execute(id, _) => PrepareChunk(s, id, o.resolved, o.now)
    case FailBranch(id) => FailSubtask(s, id, o.words, o.now)
    case Complete(_) =>
      var outcome := if call.input.Delivering? then call.input.outcome else BudgetFailure;
      SaveTerminal(s, TerminalTask(c, outcome, o.words, o.now), o.now)
    case Sweep(_) => Quiet(s, Finished(Unit))
    case Notify(_) => Quiet(s, Finished(Unit))
  }

  /** A step's next segment; a body that waits for nothing has none. */
  function Onwards(c: Config, s: Store, name: StepName, body: Body, o: Oracle): Segment {
    match (name, body)
    case (Turn(round), Inferring) => AppendDecision(s, c.taskId, round, o.inference, o.turns)
    case (Turn(round), Appended(inference, turns)) =>
      if inference.Failing? then Segment(s, None, None) else CommitDecision(s, c.taskId, round, inference, turns, c.max, o.now)
    case (Execute(id, _), Executing(taskId)) => ReceiveChunk(s, id, taskId, o.chunk, o.now)
    case (Execute(id, _), Enriching(_, result)) => PersistResult(s, id, result, o.now)
    case _ => Segment(s, None, None)
  }

  /** What the attempt ladder guarantees of a round's inference. */
  predicate Legal(c: Config, mode: Budget.Mode, remaining: int, inference: Inference, turns: nat) {
    && turns <= Budget.RoundCeiling(remaining)
    && (inference.Delegating? ==> mode.Open? && turns >= 1 && 1 <= |inference.drafts| <= c.max)
  }

  function Landed(w: World, name: StepName, input: Input, seg: Segment): World {
    match seg.body
    case None => w.(store := seg.store, bodies := w.bodies - {name})
    case Some(body) =>
      w.(store := seg.store, bodies := w.bodies[name := Flight(input, body)],
         said := if seg.said.Some? then w.said + [seg.said.value] else w.said)
  }

  ghost predicate Enabled(c: Config, w: World, a: Action) {
    match a
    case Start(call, _) => call in Calls(c, w.journal) && call.name !in w.journal && call.name !in w.bodies
    case Continue(n, o) =>
      && n in w.bodies && !w.bodies[n].body.Finished?
      && (w.bodies[n].body.Inferring? && w.bodies[n].input.Turning? ==>
            Legal(c, w.bodies[n].input.mode, w.bodies[n].input.remaining, o.inference, o.turns))
    case Crash(n) => n in w.bodies
    case Record(n) => n in w.bodies && w.bodies[n].body.Finished?
    case GiveUp(n) => Replay.Names(Calls(c, w.journal), n) && n !in w.journal && n !in w.bodies
    case Resolve(id, _) => id in w.store.subtasks.rows && Tasks.IsCanceled(w.store.tasks, w.store.subtasks.rows[id].taskId)
    case Elsewhere(op) =>
      (match op
       case Creating(taskId, _, _, _) => taskId != c.taskId
       case CancelingPending(taskId, _) => taskId != c.taskId
       case Cleaning(_) => false
       case _ => op.id in w.store.subtasks.rows ==> w.store.subtasks.rows[op.id].taskId != c.taskId)
    case _ => true
  }

  function Next(c: Config, w: World, a: Action): World {
    match a
    case Start(call, o) =>
      var seg := Opening(c, w.store, call, o);
      var after := Landed(w, call.name, call.input, seg);
      if call.name.Notify? && call.input.Posting? then after.(posted := w.posted + [call.input.task]) else after
    case Continue(n, o) =>
      if n in w.bodies then Landed(w, n, w.bodies[n].input, Onwards(c, w.store, n, w.bodies[n].body, o)) else w
    case Crash(n) => w.(bodies := w.bodies - {n})
    case Record(n) =>
      if n in w.bodies && w.bodies[n].body.Finished?
      then w.(bodies := w.bodies - {n}, journal := w.journal[n := Returned(w.bodies[n].body.value)])
      else w
    case GiveUp(n) => w.(journal := w.journal[n := Threw])
    case Accept(messageId, taskId, contextId, now) =>
      if taskId in w.store.tasks then w
      else w.(store := w.store.(tasks := w.store.tasks[taskId :=
             Tasks.Row(Tasks.Task(taskId, contextId, Tasks.Submitted, None, now), Some(messageId), now, now)]))
    case CancelTask(taskId, now) => w.(store := Agent.CancelTask(w.store, taskId, now))
    case HostSave(task, now) => w.(store := Agent.HostSave(w.store, task, now))
    case Resolve(id, now) => w.(store := ResolveRunning(w.store, id, now))
    case Elsewhere(op) => w.(store := w.store.(subtasks := Subtasks.Apply(w.store.subtasks, op, c.max)))
  }

  // ---- what holds in every state -------------------------------------------------------------

  ghost predicate Sound(c: Config, s: Store) {
    Subtasks.Valid(s.subtasks, c.max) && Tasks.Keyed(s.tasks)
  }

  ghost predicate Settled(s: Store, id: nat) {
    id in s.subtasks.rows && Subtasks.Terminal(s.subtasks.rows[id].status)
  }

  ghost predicate Claimed(s: Store, id: nat) {
    id in s.subtasks.rows && !s.subtasks.rows[id].status.Pending?
  }

  function Final(c: Config): History.Key {
    History.FinalKey(c.taskId)
  }

  function Ack(c: Config, round: nat): History.Key {
    History.AckKey(c.taskId, round)
  }

  ghost predicate Stores(s: Store, key: History.Key, text: string) {
    key in s.session && s.session[key] == text
  }

  function Of(c: Config, s: Store, round: nat): set<nat> {
    Rows(s, c.taskId, round)
  }

  ghost predicate VerdictFact(c: Config, s: Store, round: nat, verdict: Verdict) {
    match verdict
    case Replied(reply) => Of(c, s, round) == {} && Stores(s, Final(c), reply)
    case Delegated => Of(c, s, round) != {}
    case Failed(_, _) => Of(c, s, round) == {}
    case Canceled => Tasks.IsCanceled(s.tasks, c.taskId)
  }

  ghost predicate TurnFact(c: Config, s: Store, round: nat, body: Body) {
    match body
    case Inferring => Of(c, s, round) == {} && Final(c) !in s.session
    case Appended(inference, _) =>
      && Of(c, s, round) == {}
      && (match inference
          case Replying(text) => Stores(s, Final(c), text)
          case Delegating(reply, _) => Final(c) !in s.session && Stores(s, Ack(c, round), reply)
          case Failing(_, _) => false)
    case Finished(value) => value.Turned? && VerdictFact(c, s, round, value.verdict)
    case _ => false
  }

  ghost predicate ScanFact(c: Config, s: Store, round: nat, body: Body) {
    && body.Finished? && body.value.Scanned?
    && if body.value.canceled then Tasks.IsCanceled(s.tasks, c.taskId)
       else body.value.ids <= Of(c, s, round) && forall id :: id in Of(c, s, round) && id !in body.value.ids ==> Settled(s, id)
  }

  ghost predicate ExecuteFact(c: Config, s: Store, id: nat, body: Body) {
    match body
    case Executing(taskId) => taskId == c.taskId && Claimed(s, id)
    case Enriching(taskId, _) => taskId == c.taskId && Claimed(s, id)
    case Finished(value) => value.Flag? && if value.b then Settled(s, id) else Claimed(s, id)
    case _ => false
  }

  /** What a step's body, where it stands, says about the stores. */
  ghost predicate BodyFact(c: Config, s: Store, name: StepName, body: Body) {
    match name
    case Turn(round) => TurnFact(c, s, round, body)
    case Scan(round) => ScanFact(c, s, round, body)
    case Execute(id, _) => ExecuteFact(c, s, id, body)
    case FailBranch(id) => body.Finished? && Settled(s, id)
    case Working => body.Finished? && (body.value == Flag(false) ==> Tasks.IsCanceled(s.tasks, c.taskId))
    case Complete(_) => body.Finished? && body.value.Saved?
    case _ => body.Finished?
  }

  ghost predicate Charged(c: Config, name: StepName, f: Flight) {
    name.Turn? ==>
      && f.input.Turning?
      && (f.body.Appended? ==> Legal(c, f.input.mode, f.input.remaining, f.body.inference, f.body.turns))
      && (f.body.Finished? && f.body.value.Turned? ==>
            Replay.Permitted(f.input.mode, f.input.remaining, f.body.value.verdict, f.body.value.turns))
  }

  ghost predicate FlightsTrue(c: Config, w: World) {
    forall n :: n in w.bodies ==>
      && n !in w.journal && Call(n, w.bodies[n].input) in Calls(c, w.journal)
      && BodyFact(c, w.store, n, w.bodies[n].body) && Charged(c, n, w.bodies[n])
  }

  ghost predicate RecordsTrue(c: Config, w: World) {
    forall n :: n in w.journal ==>
      && Replay.Names(Calls(c, w.journal), n)
      && (w.journal[n].Returned? ==> BodyFact(c, w.store, n, Finished(w.journal[n].value)))
  }

  /** A canceled Task has no pending subtask. */
  ghost predicate Idle(c: Config, s: Store) {
    Tasks.IsCanceled(s.tasks, c.taskId) ==>
      forall id :: id in s.subtasks.rows && s.subtasks.rows[id].taskId == c.taskId ==> !s.subtasks.rows[id].status.Pending?
  }

  ghost predicate OpenTurn(c: Config, j: Journal, round: nat) {
    exists remaining: int :: Call(Turn(round), Turning(Budget.Open, remaining)) in Calls(c, j)
  }

  /** A round with rows was open, is acknowledged, and left its turn before any answer was stored. */
  ghost predicate RoundsTrue(c: Config, w: World) {
    forall round :: Of(c, w.store, round) != {} ==>
      && Ack(c, round) in w.store.session
      && OpenTurn(c, w.journal, round)
      && (Final(c) in w.store.session ==> Turn(round) in w.journal)
  }

  ghost predicate Covered(j: Journal, id: nat, round: nat) {
    Replay.ScannedAt(j, round) && !j[Scan(round)].value.canceled && id in j[Scan(round)].value.ids
  }

  /** A running row was scanned: some branch is there to end it. */
  ghost predicate RunningCovered(c: Config, j: Journal, s: Store) {
    forall id :: id in s.subtasks.rows && s.subtasks.rows[id].taskId == c.taskId && s.subtasks.rows[id].status.Running?
      ==> Covered(j, id, s.subtasks.rows[id].round)
  }

  ghost predicate PostedTrue(w: World) {
    forall i :: 0 <= i < |w.posted| ==> Replay.SavedBy(w.journal, false, w.posted[i]) || Replay.SavedBy(w.journal, true, w.posted[i])
  }

  ghost predicate SaidFact(c: Config, s: Store, said: Said) {
    match said
    case Answered(round, text) => Of(c, s, round) == {} && Stores(s, Final(c), text)
    case Handed(round, ids, ack) => Of(c, s, round) == ids && ids != {} && Stores(s, Ack(c, round), ack)
  }

  ghost predicate SaidTrue(c: Config, w: World) {
    forall i :: 0 <= i < |w.said| ==> SaidFact(c, w.store, w.said[i])
  }

  ghost predicate Inv(c: Config, w: World) {
    && Sound(c, w.store)
    && FlightsTrue(c, w)
    && RecordsTrue(c, w)
    && Idle(c, w.store)
    && RoundsTrue(c, w)
    && RunningCovered(c, w.journal, w.store)
    && Replay.TurnsPermitted(w.journal, Calls(c, w.journal))
    && PostedTrue(w)
    && SaidTrue(c, w)
  }

  // ---- how the stores move --------------------------------------------------------------------

  /** Nothing durable is taken back. */
  ghost predicate Evolves(c: Config, s: Store, t: Store) {
    && (forall k :: k in s.session ==> k in t.session && t.session[k] == s.session[k])
    && (forall id :: id in s.subtasks.rows ==>
          && id in t.subtasks.rows
          && t.subtasks.rows[id].taskId == s.subtasks.rows[id].taskId && t.subtasks.rows[id].round == s.subtasks.rows[id].round
          && (Subtasks.Terminal(s.subtasks.rows[id].status) ==> t.subtasks.rows[id] == s.subtasks.rows[id])
          && (!s.subtasks.rows[id].status.Pending? ==> !t.subtasks.rows[id].status.Pending?))
    && (Tasks.IsCanceled(s.tasks, c.taskId) ==> Tasks.IsCanceled(t.tasks, c.taskId))
  }

  /** The Task's rounds and its answer are as they were. */
  ghost predicate Steady(c: Config, s: Store, t: Store) {
    && Evolves(c, s, t)
    && (forall round :: Of(c, t, round) == Of(c, s, round))
    && (Final(c) in t.session ==> Final(c) in s.session)
  }

  lemma FactKeeps(c: Config, s: Store, t: Store, n: StepName, body: Body)
    requires BodyFact(c, s, n, body) && Evolves(c, s, t)
    requires n.Turn? || n.Scan? ==> Of(c, t, n.round) == Of(c, s, n.round)
    requires n.Turn? && !body.Finished? && Final(c) in t.session ==> Final(c) in s.session
    ensures BodyFact(c, t, n, body)
  {}

  lemma SaidKeeps(c: Config, s: Store, t: Store, said: Said)
    requires SaidFact(c, s, said) && Evolves(c, s, t)
    requires Of(c, t, said.round) == Of(c, s, said.round)
    ensures SaidFact(c, t, said)
  {}

  /** A steady change of the stores keeps everything, when it starts nothing that no branch covers. */
  lemma SteadyKeeps(c: Config, w: World, t: Store)
    requires Inv(c, w) && Steady(c, w.store, t)
    requires Sound(c, t) && Idle(c, t) && RunningCovered(c, w.journal, t)
    ensures Inv(c, w.(store := t))
  {
    hide BodyFact, SaidFact;
    var v := w.(store := t);
    forall n | n in w.bodies
      ensures BodyFact(c, t, n, w.bodies[n].body)
    {
      FactKeeps(c, w.store, t, n, w.bodies[n].body);
    }
    forall n | n in w.journal && w.journal[n].Returned?
      ensures BodyFact(c, t, n, Finished(w.journal[n].value))
    {
      FactKeeps(c, w.store, t, n, Finished(w.journal[n].value));
    }
    forall i | 0 <= i < |w.said|
      ensures SaidFact(c, t, w.said[i])
    {
      SaidKeeps(c, w.store, t, w.said[i]);
    }
    assert RoundsTrue(c, v);
  }

  lemma DroppingKeeps(c: Config, w: World, n: StepName)
    requires Inv(c, w)
    ensures Inv(c, w.(bodies := w.bodies - {n}))
  {}

  /** A segment lands: the stores have moved already, and the body's own facts hold of them. */
  lemma LandingKeeps(c: Config, w: World, n: StepName, input: Input, seg: Segment)
    requires Inv(c, w.(store := seg.store, bodies := w.bodies - {n}))
    requires n !in w.journal && Call(n, input) in Calls(c, w.journal)
    requires seg.body.Some? ==> BodyFact(c, seg.store, n, seg.body.value) && Charged(c, n, Flight(input, seg.body.value))
    requires seg.said.Some? ==> SaidFact(c, seg.store, seg.said.value)
    ensures Inv(c, Landed(w, n, input, seg))
  {
    hide BodyFact, SaidFact, Charged;
    var v := w.(store := seg.store, bodies := w.bodies - {n});
    var u := Landed(w, n, input, seg);
    if seg.body.Some? {
      forall m | m in u.bodies && m != n
        ensures m in v.bodies && u.bodies[m] == v.bodies[m]
      {}
      assert FlightsTrue(c, u);
    }
  }

  // ---- what the journal says of a call -----------------------------------------------------------

  lemma CallsGrow(c: Config, j: Journal, k: Journal)
    requires Replay.Extends(j, k)
    ensures Calls(c, j) <= Calls(c, k)
  {
    Replay.ReplayIsDeterministic(j, k, c.limits);
  }

  lemma OneCall(c: Config, j: Journal, call: Call, other: Call)
    requires call in Calls(c, j) && other in Calls(c, j) && call.name == other.name && !call.name.FailBranch?
    ensures call == other
  {
    Replay.NamesAreAskedForOneWay(j, c.limits);
  }

  /** What has been recorded by the time a step is asked for. */
  ghost predicate Sourced(j: Journal, call: Call) {
    match call.name
    case Turn(_) => call.input.Turning?
    case Scan(round) => Replay.DelegatedAt(j, round)
    case Execute(id, _) => exists round :: Replay.BranchOf(j, round, id)
    case FailBranch(id) => call in Branch(j, id, 0).calls && exists round :: Replay.BranchOf(j, round, id)
    case Complete(_) => call.input.Delivering? && (call.input.outcome.Answer? ==> Replay.AnsweredWith(j, call.input.outcome.reply))
    case Notify(abandoned) => call.input.Posting? && Replay.SavedBy(j, abandoned, call.input.task)
    case _ => true
  }

  lemma CallsAreSourced(c: Config, j: Journal, call: Call)
    requires call in Calls(c, j)
    ensures Sourced(j, call)
    ensures call.name.Turn? ==> call in Orchestrate(j, c.limits).calls
  {
    Replay.OrchestrationPlaced(j, c.limits);
    Replay.RecoveryNames(j);
  }

  lemma OneTurnInFlight(c: Config, w: World, call: Call, other: Call)
    requires call in Calls(c, w.journal) && other in Calls(c, w.journal)
    requires call.name.Turn? && other.name.Turn? && call.name !in w.journal && other.name !in w.journal
    ensures call.name == other.name
  {
    CallsAreSourced(c, w.journal, call);
    CallsAreSourced(c, w.journal, other);
    Replay.OneTurnAtATime(w.journal, c.limits, call, other);
  }

  // ---- the journal grows ----------------------------------------------------------------------------

  lemma PermissionsKeep(c: Config, j: Journal, n: StepName, r: Workflow.Record, input: Input)
    requires n !in j && Call(n, input) in Calls(c, j)
    requires Replay.TurnsPermitted(j, Calls(c, j))
    requires forall m :: m in j ==> Replay.Names(Calls(c, j), m)
    requires n.Turn? && input.Turning? && r.Returned? && r.value.Turned? ==>
      Replay.Permitted(input.mode, input.remaining, r.value.verdict, r.value.turns)
    ensures Replay.TurnsPermitted(j[n := r], Calls(c, j[n := r]))
  {
    var k := j[n := r];
    CallsGrow(c, j, k);
    forall call | call in Calls(c, k) && call.name.Turn? && call.input.Turning?
                  && call.name in k && k[call.name].Returned? && k[call.name].value.Turned?
      ensures Replay.Permitted(call.input.mode, call.input.remaining, k[call.name].value.verdict, k[call.name].value.turns)
    {
      if call.name == n {
        OneCall(c, k, call, Call(n, input));
      } else {
        var before :| before in Calls(c, j) && before.name == call.name;
        OneCall(c, k, call, before);
      }
    }
  }

  lemma JournalingKeeps(c: Config, w: World, n: StepName, r: Workflow.Record, input: Input)
    requires Inv(c, w)
    requires n !in w.journal && n !in w.bodies && Call(n, input) in Calls(c, w.journal)
    requires r.Returned? ==> BodyFact(c, w.store, n, Finished(r.value)) && Charged(c, n, Flight(input, Finished(r.value)))
    ensures Inv(c, w.(journal := w.journal[n := r]))
  {
    hide BodyFact, SaidFact, Calls;
    var j, k := w.journal, w.journal[n := r];
    CallsGrow(c, j, k);
    PermissionsKeep(c, j, n, r, input);
    var v := w.(journal := k);
    assert forall m :: m in j ==> Replay.Names(Calls(c, j), m);
    forall m | m in k
      ensures Replay.Names(Calls(c, k), m)
    {
      if m == n {
        assert Call(n, input) in Calls(c, k);
      } else {
        var call :| call in Calls(c, j) && call.name == m;
        assert call in Calls(c, k);
      }
    }
    assert RecordsTrue(c, v);
    assert FlightsTrue(c, v);
    RoundsKeep(c, w, n, r);
  }

  lemma RoundsKeep(c: Config, w: World, n: StepName, r: Workflow.Record)
    requires n !in w.journal && RoundsTrue(c, w)
    ensures RoundsTrue(c, w.(journal := w.journal[n := r]))
  {
    var k := w.journal[n := r];
    CallsGrow(c, w.journal, k);
    forall round | Of(c, w.store, round) != {}
      ensures OpenTurn(c, k, round)
    {
      var remaining: int :| Call(Turn(round), Turning(Budget.Open, remaining)) in Calls(c, w.journal);
      assert Call(Turn(round), Turning(Budget.Open, remaining)) in Calls(c, k);
    }
  }

  lemma RecordingKeeps(c: Config, w: World, n: StepName)
    requires Inv(c, w) && n in w.bodies && w.bodies[n].body.Finished?
    ensures Inv(c, Next(c, w, Record(n)))
  {
    hide Inv, BodyFact, Calls;
    FlightKnown(c, w, n);
    DroppingKeeps(c, w, n);
    JournalingKeeps(c, w.(bodies := w.bodies - {n}), n, Returned(w.bodies[n].body.value), w.bodies[n].input);
  }

  lemma FlightKnown(c: Config, w: World, n: StepName)
    requires Inv(c, w) && n in w.bodies
    ensures n !in w.journal && Call(n, w.bodies[n].input) in Calls(c, w.journal)
    ensures BodyFact(c, w.store, n, w.bodies[n].body) && Charged(c, n, w.bodies[n])
  {}

  lemma GivingUpKeeps(c: Config, w: World, n: StepName)
    requires Inv(c, w) && Enabled(c, w, GiveUp(n))
    ensures Inv(c, Next(c, w, GiveUp(n)))
  {
    var call :| call in Calls(c, w.journal) && call.name == n;
    JournalingKeeps(c, w, n, Threw, call.input);
  }

  // ---- the tables move ----------------------------------------------------------------------------------

  /** One row before and after a guarded write. */
  ghost predicate RowMoves(r: Subtasks.Row, q: Subtasks.Row, mayStart: bool) {
    && q.taskId == r.taskId && q.round == r.round
    && (Subtasks.Terminal(r.status) ==> q == r)
    && (q.status.Pending? ==> r.status.Pending?)
    && (q.status.Running? ==> r.status.Running? || mayStart)
  }

  ghost predicate TableMoves(t: Subtasks.Table, u: Subtasks.Table, op: Subtasks.Op) {
    && u.rows.Keys == t.rows.Keys
    && forall id :: id in t.rows ==> RowMoves(t.rows[id], u.rows[id], op.Starting? && op.id == id)
  }

  lemma WritesMove(t: Subtasks.Table, op: Subtasks.Op, max: nat)
    requires !op.Creating? && !op.Cleaning?
    ensures TableMoves(t, Subtasks.Apply(t, op, max), op)
  {}

  lemma MovesKeepRounds(t: Subtasks.Table, u: Subtasks.Table, op: Subtasks.Op, taskId: string, round: nat)
    requires TableMoves(t, u, op)
    ensures Subtasks.RoundIds(u, taskId, round) == Subtasks.RoundIds(t, taskId, round)
  {
    forall id | id in t.rows
      ensures id in Subtasks.RoundIds(u, taskId, round) <==> id in Subtasks.RoundIds(t, taskId, round)
    {
      assert RowMoves(t.rows[id], u.rows[id], op.Starting? && op.id == id);
    }
  }

  /** A guarded write to the subtask table. */
  lemma TableWrite(c: Config, s: Store, op: Subtasks.Op)
    requires Sound(c, s) && !op.Creating? && !op.Cleaning?
    ensures
      var t := s.(subtasks := Subtasks.Apply(s.subtasks, op, c.max));
      Steady(c, s, t) && Sound(c, t) && TableMoves(s.subtasks, t.subtasks, op)
  {
    hide Subtasks.Apply, Subtasks.Valid;
    Subtasks.ApplyKeepsValid(s.subtasks, op, c.max);
    WritesMove(s.subtasks, op, c.max);
    var t := s.(subtasks := Subtasks.Apply(s.subtasks, op, c.max));
    forall round
      ensures Of(c, t, round) == Of(c, s, round)
    {
      MovesKeepRounds(s.subtasks, t.subtasks, op, c.taskId, round);
    }
  }

  /** A write that starts nothing leaves no new row to cover, and none pending that was not. */
  lemma NothingStarts(c: Config, j: Journal, s: Store, t: Store, op: Subtasks.Op)
    requires TableMoves(s.subtasks, t.subtasks, op) && !op.Starting?
    requires RunningCovered(c, j, s)
    ensures RunningCovered(c, j, t)
    ensures Idle(c, s) && (Tasks.IsCanceled(t.tasks, c.taskId) ==> Tasks.IsCanceled(s.tasks, c.taskId)) ==> Idle(c, t)
  {
    forall id | id in t.subtasks.rows
      ensures RowMoves(s.subtasks.rows[id], t.subtasks.rows[id], false)
    {}
  }

  /** A write that starts nothing keeps the invariant. */
  lemma WriteKeeps(c: Config, w: World, op: Subtasks.Op)
    requires Inv(c, w) && !op.Creating? && !op.Cleaning? && !op.Starting?
    ensures Inv(c, w.(store := w.store.(subtasks := Subtasks.Apply(w.store.subtasks, op, c.max))))
  {
    hide Subtasks.Apply, FlightsTrue, RecordsTrue, RoundsTrue, SaidTrue;
    var t := w.store.(subtasks := Subtasks.Apply(w.store.subtasks, op, c.max));
    TableWrite(c, w.store, op);
    NothingStarts(c, w.journal, w.store, t, op);
    SteadyKeeps(c, w, t);
  }

  /** A task write that cancels nothing of this Task. */
  lemma TasksWriteKeeps(c: Config, w: World, tasks: Tasks.Rows)
    requires Inv(c, w) && Tasks.Keyed(tasks)
    requires Tasks.IsCanceled(tasks, c.taskId) == Tasks.IsCanceled(w.store.tasks, c.taskId)
    ensures Inv(c, w.(store := w.store.(tasks := tasks)))
  {
    hide FlightsTrue, RecordsTrue, RoundsTrue, SaidTrue;
    SteadyKeeps(c, w, w.store.(tasks := tasks));
  }

  /** The cancellation's segment: the flip, and every pending row with it. */
  lemma FlipKeeps(c: Config, w: World, tasks: Tasks.Rows, taskId: string, now: int)
    requires Inv(c, w) && Tasks.Keyed(tasks)
    requires Tasks.IsCanceled(tasks, taskId)
    requires forall id :: id != taskId ==> Tasks.TaskAt(tasks, id) == Tasks.TaskAt(w.store.tasks, id)
    ensures Inv(c, w.(store := Store(tasks, Subtasks.CancelPending(w.store.subtasks, taskId, now), w.store.session)))
  {
    hide FlightsTrue, RecordsTrue, RoundsTrue, SaidTrue, Subtasks.Valid, TableMoves;
    var op := Subtasks.CancelingPending(taskId, now);
    var between := w.store.(subtasks := Subtasks.CancelPending(w.store.subtasks, taskId, now));
    var t := between.(tasks := tasks);
    TableWrite(c, w.store, op);
    NothingStarts(c, w.journal, w.store, t, op);
    assert Tasks.TaskAt(tasks, c.taskId) == Tasks.TaskAt(w.store.tasks, c.taskId) || c.taskId == taskId;
    assert Steady(c, w.store, t) by {
      assert forall round :: Of(c, t, round) == Of(c, between, round);
    }
    SteadyKeeps(c, w, t);
  }

  lemma CancelingKeeps(c: Config, w: World, taskId: string, now: int)
    requires Inv(c, w)
    ensures Inv(c, Next(c, w, CancelTask(taskId, now)))
  {
    var s := w.store;
    if taskId in s.tasks && Tasks.Active(s.tasks[taskId].task.state) {
      Tasks.WritersTouchOneRow(s.tasks, s.tasks[taskId].task, taskId, now);
      FlipKeeps(c, w, Tasks.CanceledRows(s.tasks, taskId, now), taskId, now);
    }
  }

  lemma HostSavingKeeps(c: Config, w: World, task: Tasks.Task, now: int)
    requires Inv(c, w)
    ensures Inv(c, Next(c, w, HostSave(task, now)))
  {
    var s := w.store;
    Tasks.WritersTouchOneRow(s.tasks, task, task.id, now);
    hide Inv;
    var tasks := Tasks.SavedRows(s.tasks, task, now);
    if Tasks.SaveApplies(Tasks.TaskAt(s.tasks, task.id), task) && task.state.Canceled? {
      FlipKeeps(c, w, tasks, task.id, now);
    } else {
      assert Tasks.TaskAt(tasks, c.taskId) ==
        if task.id == c.taskId then Tasks.SaveOne(Tasks.TaskAt(s.tasks, c.taskId), task) else Tasks.TaskAt(s.tasks, c.taskId);
      TasksWriteKeeps(c, w, tasks);
    }
  }

  lemma AcceptingKeeps(c: Config, w: World, messageId: string, taskId: string, contextId: string, now: int)
    requires Inv(c, w)
    ensures Inv(c, Next(c, w, Accept(messageId, taskId, contextId, now)))
  {
    if taskId !in w.store.tasks {
      TasksWriteKeeps(c, w, Next(c, w, Accept(messageId, taskId, contextId, now)).store.tasks);
    }
  }

  lemma ElsewhereKeeps(c: Config, w: World, op: Subtasks.Op)
    requires Inv(c, w) && Enabled(c, w, Elsewhere(op))
    ensures Inv(c, Next(c, w, Elsewhere(op)))
  {
    hide FlightsTrue, RecordsTrue, RoundsTrue, SaidTrue;
    var s, t := w.store, Next(c, w, Elsewhere(op)).store;
    if op.Creating? {
      CreatingElsewhere(c, s, op);
      SteadyKeeps(c, w, t);
    } else {
      hide Subtasks.Apply, Subtasks.Valid;
      TableWrite(c, s, op);
      forall id | id in t.subtasks.rows && t.subtasks.rows[id].taskId == c.taskId
        ensures s.subtasks.rows[id].taskId == c.taskId && RowMoves(s.subtasks.rows[id], t.subtasks.rows[id], false)
      {
        assert RowMoves(s.subtasks.rows[id], t.subtasks.rows[id], op.Starting? && op.id == id);
      }
      SteadyKeeps(c, w, t);
    }
  }

  lemma CreatingElsewhere(c: Config, s: Store, op: Subtasks.Op)
    requires Sound(c, s) && op.Creating? && op.taskId != c.taskId
    ensures
      var t := s.(subtasks := Subtasks.Apply(s.subtasks, op, c.max));
      && Steady(c, s, t) && Sound(c, t)
      && forall id :: id in t.subtasks.rows && t.subtasks.rows[id].taskId == c.taskId ==>
           id in s.subtasks.rows && t.subtasks.rows[id] == s.subtasks.rows[id]
  {
    hide Subtasks.InsertAll, Subtasks.Ceiling, Subtasks.RowOk, Subtasks.Ordered, Subtasks.RoundsWhole;
    Subtasks.ApplyKeepsValid(s.subtasks, op, c.max);
    Subtasks.InsertedRows(s.subtasks, op.taskId, op.round, Subtasks.Ceiling(s.subtasks, op.taskId, s.subtasks.nextId), op.drafts, op.now);
    var t := s.(subtasks := Subtasks.Apply(s.subtasks, op, c.max));
    forall round
      ensures Of(c, t, round) == Of(c, s, round)
    {
      Subtasks.OtherRoundsUntouched(s.subtasks, op.taskId, op.round, op.drafts, op.now, c.taskId, round);
    }
  }

  // ---- the segments --------------------------------------------------------------------------------------

  /** A segment that may land in a world where its step has no body. */
  ghost predicate Fine(c: Config, w: World, n: StepName, input: Input, seg: Segment) {
    && Inv(c, w.(store := seg.store))
    && (seg.body.Some? ==> BodyFact(c, seg.store, n, seg.body.value) && Charged(c, n, Flight(input, seg.body.value)))
    && (seg.said.Some? ==> SaidFact(c, seg.store, seg.said.value))
  }

  lemma FineLands(c: Config, w: World, n: StepName, input: Input, seg: Segment)
    requires Fine(c, w.(bodies := w.bodies - {n}), n, input, seg)
    requires n !in w.journal && Call(n, input) in Calls(c, w.journal)
    ensures Inv(c, Landed(w, n, input, seg))
  {
    hide Inv, BodyFact, Charged, SaidFact;
    LandingKeeps(c, w, n, input, seg);
  }

  lemma EnteringIsFine(c: Config, w: World, call: Call)
    requires Inv(c, w) && call in Calls(c, w.journal) && call.name.Turn?
    requires call.name !in w.journal && call.name !in w.bodies
    ensures Fine(c, w, call.name, call.input, EnterTurn(w.store, c.taskId, call.name.round, c.text, c.recovered))
  {
    hide Inv, Calls;
    var s, r := w.store, call.name.round;
    CallsAreSourced(c, w.journal, call);
    assert w.(store := s) == w;
    if Of(c, s, r) != {} {
      RoundKnown(c, w, r);
      var remaining: int :| Call(Turn(r), Turning(Budget.Open, remaining)) in Calls(c, w.journal);
      OneCall(c, w.journal, call, Call(Turn(r), Turning(Budget.Open, remaining)));
    } else {
      UserTurnKeeps(c, w, c.text);
    }
  }

  lemma RoundKnown(c: Config, w: World, round: nat)
    requires Inv(c, w) && Of(c, w.store, round) != {}
    ensures Ack(c, round) in w.store.session && OpenTurn(c, w.journal, round)
    ensures Final(c) in w.store.session ==> Turn(round) in w.journal
  {}

  lemma UserTurnKeeps(c: Config, w: World, text: string)
    requires Inv(c, w)
    ensures Inv(c, w.(store := w.store.(session := AppendOnce(w.store.session, History.UserKey(c.taskId), text))))
    ensures forall round ::
      Of(c, w.store.(session := AppendOnce(w.store.session, History.UserKey(c.taskId), text)), round) == Of(c, w.store, round)
  {
    hide FlightsTrue, RecordsTrue, SaidTrue, RoundsTrue, Subtasks.Valid;
    var t := w.store.(session := AppendOnce(w.store.session, History.UserKey(c.taskId), text));
    assert Steady(c, w.store, t) by {
      assert forall round :: Of(c, t, round) == Of(c, w.store, round);
    }
    SteadyKeeps(c, w, t);
  }

  ghost predicate NoTurnInFlight(w: World) {
    forall n :: n in w.bodies ==> !n.Turn?
  }

  lemma TurnAlone(c: Config, w: World, n: StepName)
    requires Inv(c, w) && n.Turn? && n in w.bodies
    ensures NoTurnInFlight(w.(bodies := w.bodies - {n}))
  {
    forall m | m in w.bodies && m.Turn?
      ensures m == n
    {
      OneTurnInFlight(c, w, Call(m, w.bodies[m].input), Call(n, w.bodies[n].input));
    }
  }

  lemma OtherRoundsRecorded(c: Config, w: World, round: nat, input: Input, other: nat)
    requires RoundsTrue(c, w) && Turn(round) !in w.journal && Call(Turn(round), input) in Calls(c, w.journal)
    requires Of(c, w.store, other) != {} && other != round
    ensures Turn(other) in w.journal
  {
    var remaining: int :| Call(Turn(other), Turning(Budget.Open, remaining)) in Calls(c, w.journal);
    if Turn(other) !in w.journal {
      OneTurnInFlight(c, w, Call(Turn(other), Turning(Budget.Open, remaining)), Call(Turn(round), input));
    }
  }

  /** The answer is stored: no round that is still open has rows. */
  lemma AnswerKeeps(c: Config, w: World, round: nat, input: Input, text: string)
    requires Inv(c, w) && NoTurnInFlight(w)
    requires Turn(round) !in w.journal && Call(Turn(round), input) in Calls(c, w.journal)
    requires Of(c, w.store, round) == {}
    ensures Inv(c, w.(store := w.store.(session := AppendOnce(w.store.session, Final(c), text))))
  {
    hide BodyFact, SaidFact, Calls;
    var t := w.store.(session := AppendOnce(w.store.session, Final(c), text));
    var v := w.(store := t);
    assert forall r :: Of(c, t, r) == Of(c, w.store, r);
    forall n | n in w.bodies
      ensures BodyFact(c, t, n, w.bodies[n].body)
    {
      FactKeeps(c, w.store, t, n, w.bodies[n].body);
    }
    forall n | n in w.journal && w.journal[n].Returned?
      ensures BodyFact(c, t, n, Finished(w.journal[n].value))
    {
      FactKeeps(c, w.store, t, n, Finished(w.journal[n].value));
    }
    forall i | 0 <= i < |w.said|
      ensures SaidFact(c, t, w.said[i])
    {
      SaidKeeps(c, w.store, t, w.said[i]);
    }
    forall r | Of(c, t, r) != {}
      ensures Turn(r) in w.journal
    {
      OtherRoundsRecorded(c, w, round, input, r);
    }
    assert RoundsTrue(c, v);
  }

  lemma DecidingIsFine(c: Config, w: World, round: nat, input: Input, inference: Inference, turns: nat)
    requires Inv(c, w) && NoTurnInFlight(w)
    requires Turn(round) !in w.journal && Call(Turn(round), input) in Calls(c, w.journal)
    requires TurnFact(c, w.store, round, Inferring)
    requires input.Turning? && Legal(c, input.mode, input.remaining, inference, turns)
    ensures Fine(c, w, Turn(round), input, AppendDecision(w.store, c.taskId, round, inference, turns))
  {
    hide FlightsTrue, RecordsTrue, SaidTrue;
    var s := w.store;
    var seg := AppendDecision(s, c.taskId, round, inference, turns);
    assert forall r :: Of(c, seg.store, r) == Of(c, s, r);
    match inference
    case Failing(_, _) =>
    case Replying(text) => AnswerKeeps(c, w, round, input, text);
    case Delegating(_, _) => SteadyKeeps(c, w, seg.store);
  }

  /** A round's rows appear: nothing known so far was about them. */
  lemma RowsKeep(c: Config, w: World, round: nat, remaining: int, drafts: seq<Subtasks.Draft>, now: int)
    requires Inv(c, w) && NoTurnInFlight(w)
    requires Turn(round) !in w.journal && Call(Turn(round), Turning(Budget.Open, remaining)) in Calls(c, w.journal)
    requires Of(c, w.store, round) == {} && Ack(c, round) in w.store.session && Final(c) !in w.store.session
    requires !Tasks.IsCanceled(w.store.tasks, c.taskId) && 1 <= |drafts| <= c.max
    ensures
      var t := w.store.(subtasks := Subtasks.Create(w.store.subtasks, c.taskId, round, drafts, c.max, now));
      Inv(c, w.(store := t)) && Of(c, t, round) != {}
  {
    hide BodyFact, SaidFact, Calls, Subtasks.Valid;
    var s := w.store;
    var t := s.(subtasks := Subtasks.Create(s.subtasks, c.taskId, round, drafts, c.max, now));
    RowsAppear(c, s, round, drafts, now);
    forall n | n in w.bodies
      ensures BodyFact(c, t, n, w.bodies[n].body)
    {
      NotYetScanned(c, w, round, n);
      FactKeeps(c, s, t, n, w.bodies[n].body);
    }
    forall n | n in w.journal && w.journal[n].Returned?
      ensures BodyFact(c, t, n, Finished(w.journal[n].value))
    {
      NotYetScanned(c, w, round, n);
      FactKeeps(c, s, t, n, Finished(w.journal[n].value));
    }
    forall i | 0 <= i < |w.said|
      ensures SaidFact(c, t, w.said[i])
    {
      SaidBefore(c, s, round, w.said[i]);
      SaidKeeps(c, s, t, w.said[i]);
    }
    assert RoundsTrue(c, w.(store := t)) by {
      assert OpenTurn(c, w.journal, round);
    }
  }

  /** The rows of a table after an insert of one round, as the machine needs them. */
  lemma InsertedRound(t: Subtasks.Table, taskId: string, round: nat, drafts: seq<Subtasks.Draft>, now: int)
    requires forall id :: id in t.rows ==> id < t.nextId
    requires Subtasks.RoundIds(t, taskId, round) == {} && |drafts| >= 1
    ensures
      var u := Subtasks.Inserted(t, taskId, round, drafts, now);
      && Subtasks.RoundIds(u, taskId, round) != {}
      && (forall id :: id in t.rows ==> id in u.rows && u.rows[id] == t.rows[id])
      && (forall id :: id in u.rows && u.rows[id].status.Running? ==> id in t.rows)
  {
    hide Subtasks.InsertAll, Subtasks.Ceiling, Subtasks.RoundIds, Subtasks.Interval;
    var u := Subtasks.Inserted(t, taskId, round, drafts, now);
    Subtasks.InsertedRows(t, taskId, round, Subtasks.Ceiling(t, taskId, t.nextId), drafts, now);
    Subtasks.CreatedIds(t, taskId, round, drafts, now);
    assert t.nextId in Subtasks.RoundIds(u, taskId, round);
    forall id | id in u.rows && id !in t.rows
      ensures u.rows[id].status.Pending?
    {
      assert Subtasks.InsertedAs(u, id, taskId, round, Subtasks.Ceiling(t, taskId, t.nextId) + (id - t.nextId), now);
    }
  }

  lemma RowsAppear(c: Config, s: Store, round: nat, drafts: seq<Subtasks.Draft>, now: int)
    requires Sound(c, s) && Of(c, s, round) == {} && 1 <= |drafts| <= c.max
    ensures
      var t := s.(subtasks := Subtasks.Create(s.subtasks, c.taskId, round, drafts, c.max, now));
      && Sound(c, t) && Evolves(c, s, t)
      && Of(c, t, round) != {}
      && (forall r :: r != round ==> Of(c, t, r) == Of(c, s, r))
      && (forall id :: id in t.subtasks.rows && t.subtasks.rows[id].status.Running? ==>
            id in s.subtasks.rows && t.subtasks.rows[id] == s.subtasks.rows[id])
  {
    Subtasks.BelowNext(s.subtasks, c.max);
    hide Subtasks.Valid, Subtasks.Inserted;
    var t := s.(subtasks := Subtasks.Create(s.subtasks, c.taskId, round, drafts, c.max, now));
    Subtasks.CreateKeepsValid(s.subtasks, c.taskId, round, drafts, c.max, now);
    InsertedRound(s.subtasks, c.taskId, round, drafts, now);
    forall r | r != round
      ensures Of(c, t, r) == Of(c, s, r)
    {
      Subtasks.OtherRoundsUntouched(s.subtasks, c.taskId, round, drafts, now, c.taskId, r);
    }
  }

  /** Before a round's turn is recorded there is no scan of it, and no other step knows its rows. */
  lemma NotYetScanned(c: Config, w: World, round: nat, n: StepName)
    requires FlightsTrue(c, w) && RecordsTrue(c, w) && NoTurnInFlight(w) && Turn(round) !in w.journal
    requires n in w.bodies || n in w.journal
    ensures n.Turn? || n.Scan? ==> n.round != round
  {
    if n.Scan? {
      var call :| call in Calls(c, w.journal) && call.name == n;
      CallsAreSourced(c, w.journal, call);
    }
  }

  lemma SaidBefore(c: Config, s: Store, round: nat, said: Said)
    requires SaidFact(c, s, said) && Of(c, s, round) == {} && Final(c) !in s.session
    ensures said.round != round
  {}

  lemma CommittingIsFine(c: Config, w: World, round: nat, input: Input, inference: Inference, turns: nat, now: int)
    requires Inv(c, w) && NoTurnInFlight(w)
    requires Turn(round) !in w.journal && Call(Turn(round), input) in Calls(c, w.journal)
    requires TurnFact(c, w.store, round, Appended(inference, turns))
    requires input.Turning? && Legal(c, input.mode, input.remaining, inference, turns)
    ensures Fine(c, w, Turn(round), input, CommitDecision(w.store, c.taskId, round, inference, turns, c.max, now))
  {
    hide FlightsTrue, RecordsTrue, SaidTrue, RoundsTrue, Subtasks.Valid;
    if !Tasks.IsCanceled(w.store.tasks, c.taskId) && inference.Delegating? {
      RowsKeep(c, w, round, input.remaining, inference.drafts, now);
    }
  }

  // ---- a branch's segments -----------------------------------------------------------------------------------

  /** The row of a branch exists and is this Task's. */
  lemma BranchHasRow(c: Config, w: World, id: nat, round: nat)
    requires Inv(c, w) && Replay.BranchOf(w.journal, round, id)
    ensures id in w.store.subtasks.rows
    ensures w.store.subtasks.rows[id].taskId == c.taskId && w.store.subtasks.rows[id].round == round
  {
    var n := Scan(round);
    assert n in w.journal && w.journal[n].Returned?;
    assert BodyFact(c, w.store, n, Finished(w.journal[n].value));
    assert id in Of(c, w.store, round);
  }

  lemma ClaimKeeps(c: Config, w: World, id: nat, round: nat, recipe: Subtasks.Recipe, now: int)
    requires Inv(c, w) && Replay.BranchOf(w.journal, round, id)
    requires !Tasks.IsCanceled(w.store.tasks, c.taskId)
    ensures Inv(c, w.(store := w.store.(subtasks := Subtasks.Start(w.store.subtasks, id, recipe, now))))
  {
    BranchHasRow(c, w, id, round);
    hide FlightsTrue, RecordsTrue, SaidTrue, RoundsTrue, Subtasks.Valid;
    var s := w.store;
    var op := Subtasks.Starting(id, recipe, now);
    var t := s.(subtasks := Subtasks.Start(s.subtasks, id, recipe, now));
    TableWrite(c, s, op);
    forall k | k in t.subtasks.rows && t.subtasks.rows[k].taskId == c.taskId && t.subtasks.rows[k].status.Running?
      ensures Covered(w.journal, k, t.subtasks.rows[k].round)
    {
      assert RowMoves(s.subtasks.rows[k], t.subtasks.rows[k], k == id);
    }
    SteadyKeeps(c, w, t);
  }

  lemma PreparingIsFine(c: Config, w: World, call: Call, round: nat, resolved: Resolved, now: int)
    requires Inv(c, w) && call.name.Execute? && Replay.BranchOf(w.journal, round, call.name.id)
    ensures Fine(c, w, call.name, call.input, PrepareChunk(w.store, call.name.id, resolved, now))
  {
    hide Inv;
    var s, id := w.store, call.name.id;
    BranchHasRow(c, w, id, round);
    assert w.(store := s) == w;
    if Unfinished(s, id) {
      if Tasks.IsCanceled(s.tasks, c.taskId) {
        CanceledHasNoPending(c, w, id);
        WriteKeeps(c, w, Subtasks.CancelingRunning(id, now));
      } else {
        ClaimKeeps(c, w, id, round, resolved.recipe, now);
        if resolved.Unusable? {
          var claimed := s.(subtasks := Subtasks.Start(s.subtasks, id, resolved.recipe, now));
          WriteKeeps(c, w.(store := claimed), Subtasks.Failing(id, resolved.why, now));
        }
      }
    }
  }

  lemma CanceledHasNoPending(c: Config, w: World, id: nat)
    requires Inv(c, w) && Tasks.IsCanceled(w.store.tasks, c.taskId)
    requires id in w.store.subtasks.rows && w.store.subtasks.rows[id].taskId == c.taskId
    ensures !w.store.subtasks.rows[id].status.Pending?
  {}

  lemma ReceivingIsFine(c: Config, w: World, n: StepName, input: Input, taskId: string, chunk: Chunk, now: int)
    requires Inv(c, w) && n.Execute? && ExecuteFact(c, w.store, n.id, Executing(taskId))
    ensures Fine(c, w, n, input, ReceiveChunk(w.store, n.id, taskId, chunk, now))
  {
    hide FlightsTrue, RecordsTrue, SaidTrue, RoundsTrue, RunningCovered, Subtasks.Valid;
    if Tasks.IsCanceled(w.store.tasks, taskId) {
      WriteKeeps(c, w, Subtasks.CancelingRunning(n.id, now));
    }
  }

  lemma PersistingIsFine(c: Config, w: World, n: StepName, input: Input, result: ChildResult, now: int)
    requires Inv(c, w) && n.Execute? && Claimed(w.store, n.id)
    ensures Fine(c, w, n, input, PersistResult(w.store, n.id, result, now))
  {
    hide FlightsTrue, RecordsTrue, SaidTrue, RoundsTrue, RunningCovered, Subtasks.Valid;
    if result.ChildCompleted? && Subtasks.Usable(result.parts) {
      WriteKeeps(c, w, Subtasks.Completing(n.id, result.parts, now));
    } else {
      WriteKeeps(c, w, Subtasks.Failing(n.id, if result.ChildFailed? then result.error else MALFORMED, now));
    }
  }

  lemma FailingIsFine(c: Config, w: World, call: Call, round: nat, words: string, now: int)
    requires Inv(c, w) && call.name.FailBranch? && Replay.BranchOf(w.journal, round, call.name.id)
    ensures Fine(c, w, call.name, call.input, FailSubtask(w.store, call.name.id, words, now))
  {
    hide Inv;
    BranchHasRow(c, w, call.name.id, round);
    WriteKeeps(c, w, Subtasks.Failing(call.name.id, words, now));
  }

  // ---- every action ----------------------------------------------------------------------------------------------

  lemma OpeningIsFine(c: Config, w: World, call: Call, o: Oracle)
    requires Inv(c, w) && call in Calls(c, w.journal) && call.name !in w.journal && call.name !in w.bodies
    ensures Fine(c, w, call.name, call.input, Opening(c, w.store, call, o))
  {
    hide Inv, Calls, EnterTurn, PrepareChunk, ScanRound, FailSubtask;
    CallsAreSourced(c, w.journal, call);
    assert w.(store := w.store) == w;
    match call.name
    case Working =>
      WorkingIsQuiet(c, w, o.now);
    case Turn(_) => EnteringIsFine(c, w, call);
    case Scan(round) => ScanningIsFine(c, w, round, call.input);
    case CancelRound(_) => WriteKeeps(c, w, Subtasks.CancelingPending(c.taskId, o.now));
    case Execute(id, _) =>
      var round :| Replay.BranchOf(w.journal, round, id);
      PreparingIsFine(c, w, call, round, o.resolved, o.now);
    case FailBranch(id) =>
      var round :| Replay.BranchOf(w.journal, round, id);
      FailingIsFine(c, w, call, round, o.words, o.now);
    case Complete(_) => SavingIsQuiet(c, w, TerminalTask(c, call.input.outcome, o.words, o.now), o.now);
    case _ =>
  }

  lemma WorkingIsQuiet(c: Config, w: World, now: int)
    requires Inv(c, w)
    ensures Inv(c, w.(store := BeginWork(w.store, c.taskId, now).store))
  {
    var tasks := w.store.tasks;
    if c.taskId in tasks {
      Tasks.WritersTouchOneRow(tasks, tasks[c.taskId].task, c.taskId, now);
    }
    TasksWriteKeeps(c, w, Tasks.WorkingRows(tasks, c.taskId, now));
  }

  lemma SavingIsQuiet(c: Config, w: World, task: Tasks.Task, now: int)
    requires Inv(c, w) && task.id == c.taskId && !task.state.Canceled?
    ensures Inv(c, w.(store := SaveTerminal(w.store, task, now).store))
  {
    Tasks.WritersTouchOneRow(w.store.tasks, task, c.taskId, now);
    assert Tasks.TaskAt(Tasks.SavedRows(w.store.tasks, task, now), c.taskId) == Tasks.SaveOne(Tasks.TaskAt(w.store.tasks, c.taskId), task);
    TasksWriteKeeps(c, w, Tasks.SavedRows(w.store.tasks, task, now));
  }

  lemma ScanningIsFine(c: Config, w: World, round: nat, input: Input)
    requires Inv(c, w)
    ensures Fine(c, w, Scan(round), input, ScanRound(w.store, c.taskId, round))
  {
    hide Inv;
    assert w.(store := w.store) == w;
  }

  lemma PostingKeeps(c: Config, w: World, task: Tasks.Task)
    requires Inv(c, w)
    requires Replay.SavedBy(w.journal, false, task) || Replay.SavedBy(w.journal, true, task)
    ensures Inv(c, w.(posted := w.posted + [task]))
  {
    hide BodyFact, SaidFact, Charged;
  }

  lemma StartingKeeps(c: Config, w: World, call: Call, o: Oracle)
    requires Inv(c, w) && Enabled(c, w, Start(call, o))
    ensures Inv(c, Next(c, w, Start(call, o)))
  {
    hide Inv, Fine, Opening, Calls;
    var seg := Opening(c, w.store, call, o);
    OpeningIsFine(c, w, call, o);
    assert w.(bodies := w.bodies - {call.name}) == w;
    FineLands(c, w, call.name, call.input, seg);
    CallsAreSourced(c, w.journal, call);
    if call.name.Notify? {
      PostingKeeps(c, Landed(w, call.name, call.input, seg), call.input.task);
    }
  }

  lemma ContinuingKeeps(c: Config, w: World, n: StepName, o: Oracle)
    requires Inv(c, w) && Enabled(c, w, Continue(n, o))
    ensures Inv(c, Next(c, w, Continue(n, o)))
  {
    var v, f := w.(bodies := w.bodies - {n}), w.bodies[n];
    FlightKnown(c, w, n);
    DroppingKeeps(c, w, n);
    match n
    case Turn(round) =>
      TurnAlone(c, w, n);
      if f.body.Inferring? {
        DecidingIsFine(c, v, round, f.input, o.inference, o.turns);
      } else {
        CommittingIsFine(c, v, round, f.input, f.body.inference, f.body.turns, o.now);
      }
      FineLands(c, w, n, f.input, Onwards(c, w.store, n, f.body, o));
    case Execute(id, _) =>
      if f.body.Executing? {
        ReceivingIsFine(c, v, n, f.input, f.body.taskId, o.chunk, o.now);
      } else {
        PersistingIsFine(c, v, n, f.input, f.body.result, o.now);
      }
      FineLands(c, w, n, f.input, Onwards(c, w.store, n, f.body, o));
    case _ =>
  }

  lemma StepKeepsInv(c: Config, w: World, a: Action)
    requires Inv(c, w) && Enabled(c, w, a)
    ensures Inv(c, Next(c, w, a))
  {
    hide Inv, Next;
    match a
    case Start(call, o) => StartingKeeps(c, w, call, o);
    case Continue(n, o) => ContinuingKeeps(c, w, n, o);
    case Crash(n) => CrashingKeeps(c, w, n);
    case Record(n) => RecordingKeeps(c, w, n);
    case GiveUp(n) => GivingUpKeeps(c, w, n);
    case Accept(messageId, taskId, contextId, now) => AcceptingKeeps(c, w, messageId, taskId, contextId, now);
    case CancelTask(taskId, now) => CancelingKeeps(c, w, taskId, now);
    case HostSave(task, now) => HostSavingKeeps(c, w, task, now);
    case Resolve(id, now) => ResolvingKeeps(c, w, id, now);
    case Elsewhere(op) => ElsewhereKeeps(c, w, op);
  }

  lemma CrashingKeeps(c: Config, w: World, n: StepName)
    requires Inv(c, w)
    ensures Inv(c, Next(c, w, Crash(n)))
  {
    DroppingKeeps(c, w, n);
  }

  lemma ResolvingKeeps(c: Config, w: World, id: nat, now: int)
    requires Inv(c, w)
    ensures Inv(c, Next(c, w, Resolve(id, now)))
  {
    WriteKeeps(c, w, Subtasks.CancelingRunning(id, now));
  }
}
