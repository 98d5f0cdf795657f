/**
 * Runs of the machine that end where the program is said not to: behind its round
 * loop, with a rejected branch, and with a completed Task nobody was told of.
 */
module Detours {
  import opened Wrappers
  import opened Workflow
  import opened Agent
  import opened Protocol
  import Budget
  import Progress
  import Replay
  import Safety
  import Silence
  import Subtasks
  import Tasks

  // ---- runs, by where they get ------------------------------------------------------------------

  ghost predicate Reaches(c: Config, w: World, v: World) {
    exists actions :: Progress.Leads(c, w, actions, v)
  }

  /** A run can stay where it is, and go on by any enabled action. */
  lemma Stays(c: Config, w: World)
    ensures Reaches(c, w, w)
  {
    assert Progress.Leads(c, w, [], w);
  }

  lemma GoesOn(c: Config, w: World, v: World, more: seq<Action>, u: World)
    requires Reaches(c, w, v) && Progress.Leads(c, v, more, u)
    ensures Reaches(c, w, u)
  {
    hide Progress.Leads;
    var actions :| Progress.Leads(c, w, actions, v);
    Progress.LeadsOn(c, w, actions, v, more, u);
  }

  lemma Goes(c: Config, w: World, v: World, a: Action)
    requires Inv(c, v) && Reaches(c, w, v) && Enabled(c, v, a)
    ensures Inv(c, Next(c, v, a)) && Reaches(c, w, Next(c, v, a))
  {
    hide Inv, Enabled, Next, Reaches;
    StepKeepsInv(c, v, a);
    var u := Next(c, v, a);
    assert [a][1..] == [] && Safety.AllEnabled(c, u, []) && Safety.After(c, u, []) == u;
    assert Progress.Leads(c, v, [a], u);
    GoesOn(c, w, v, [a], u);
  }

  /** A step of one segment, started and recorded. */
  lemma GoesThrough(c: Config, w: World, v: World, call: Call, o: Oracle, value: Value)
    requires Inv(c, v) && Reaches(c, w, v)
    requires v.bodies == map[] && call in Calls(c, v.journal) && call.name !in v.journal
    requires Opening(c, v.store, call, o).body == Some(Finished(value))
    ensures Inv(c, Progress.Stepped(c, v, call, o, value)) && Reaches(c, w, Progress.Stepped(c, v, call, o, value))
  {
    hide Inv, Opening, Calls, Reaches, Progress.Stepped, Progress.Whole;
    Progress.WholeStep(c, v, call, o, value);
    Safety.RunsKeepInv(c, v, Progress.Whole(call, o));
    GoesOn(c, w, v, Progress.Whole(call, o), Progress.Stepped(c, v, call, o, value));
  }

  // ---- at the head of a round ----------------------------------------------------------------------

  ghost predicate Under(j: Journal, round: nat) {
    && Working in j && j[Working] == Returned(Flag(true))
    && Started in j && j[Started] == Returned(Instant(0))
    && forall r :: 0 <= r < round ==> Replay.Timed(j, r) && Replay.Passed(j, r)
  }

  /** Nothing under way, nothing answered or canceled, and the round's deadline not yet read. */
  ghost predicate AtRound(c: Config, w: World, round: nat) {
    && Inv(c, w) && w.bodies == map[] && w.posted == []
    && Final(c) !in w.store.session && !Tasks.IsCanceled(w.store.tasks, c.taskId)
    && Under(w.journal, round) && Deadline(round) !in w.journal
  }

  /** Nothing of a round is known before its deadline is read. */
  lemma RoundIsNew(c: Config, w: World, round: nat)
    requires Inv(c, w) && Deadline(round) !in w.journal
    ensures Turn(round) !in w.journal && Scan(round) !in w.journal && Deadline(round + 1) !in w.journal
    ensures Of(c, w.store, round) == {}
  {
    hide Inv;
    Replay.OrchestrationPlaced(w.journal, c.limits);
    TurnNeedsDeadline(c, w, round);
    if Scan(round) in w.journal {
      Asked(c, w, Scan(round));
      var call :| call in Calls(c, w.journal) && call.name == Scan(round);
      CallsAreSourced(c, w.journal, call);
    }
    assert Replay.Reached(w.journal, 0, round + 1) ==> Replay.Passed(w.journal, round);
    if Deadline(round + 1) in w.journal {
      Asked(c, w, Deadline(round + 1));
      var call :| call in Calls(c, w.journal) && call.name == Deadline(round + 1);
      Replay.RecoveryNames(w.journal);
    }
  }

  lemma Asked(c: Config, w: World, n: StepName)
    requires Inv(c, w) && n in w.journal
    ensures Replay.Names(Calls(c, w.journal), n)
  {}

  lemma TurnNeedsDeadline(c: Config, w: World, round: nat)
    requires Inv(c, w) && Deadline(round) !in w.journal
    ensures Turn(round) !in w.journal && Of(c, w.store, round) == {}
  {
    Replay.OrchestrationPlaced(w.journal, c.limits);
    forall call | call in Calls(c, w.journal)
      ensures call.name != Turn(round)
    {
      CallsAreSourced(c, w.journal, call);
    }
    hide Calls;
    if Turn(round) in w.journal {
      Asked(c, w, Turn(round));
    }
    if Of(c, w.store, round) != {} {
      RoundKnown(c, w, round);
    }
  }

  /** A subtask id that the table has not given out has no step. */
  lemma FreshIdHasNoStep(c: Config, w: World, id: nat, n: StepName)
    requires Inv(c, w) && id !in w.store.subtasks.rows
    requires (n.Execute? || n.FailBranch?) && n.id == id
    ensures n !in w.journal
  {
    hide Inv;
    if n in w.journal {
      Asked(c, w, n);
      var call :| call in Calls(c, w.journal) && call.name == n;
      CallsAreSourced(c, w.journal, call);
      var round :| Replay.BranchOf(w.journal, round, id);
      BranchHasRow(c, w, id, round);
    }
  }

  // ---- the calls of the round at hand ---------------------------------------------------------------

  /** What the round at hand asks for, the body asks for. */
  lemma RoundIsAsked(c: Config, j: Journal, round: nat, call: Call)
    requires Under(j, round) && round <= c.limits.maxTurns + 1
    requires call in Rounds(j, c.limits, 0, round, Replay.UsedBefore(j, round)).calls
    ensures call in Calls(c, j)
  {
    hide Workflow.Rounds, Workflow.Orchestrate;
    Replay.LoopGoesOn(j, c.limits, round);
  }

  lemma DeadlineIsAsked(c: Config, j: Journal, round: nat)
    requires Under(j, round) && round <= c.limits.maxTurns && Deadline(round) !in j
    ensures Call(Deadline(round), Since(0)) in Calls(c, j)
  {
    RoundIsAsked(c, j, round, Call(Deadline(round), Since(0)));
  }

  function OpenTurnCall(c: Config, j: Journal, round: nat): Call {
    Call(Turn(round), Turning(Budget.Open, c.limits.maxTurns - Replay.UsedBefore(j, round)))
  }

  ghost predicate InTime(j: Journal, round: nat) {
    Deadline(round) in j && j[Deadline(round)] == Returned(Flag(false))
  }

  lemma TurnIsAsked(c: Config, j: Journal, round: nat)
    requires Under(j, round) && round <= c.limits.maxTurns && InTime(j, round)
    requires Replay.UsedBefore(j, round) < c.limits.maxTurns
    ensures OpenTurnCall(c, j, round) in Calls(c, j)
  {
    var turn, used := OpenTurnCall(c, j, round), Replay.UsedBefore(j, round);
    assert turn in OneRound(j, c.limits, 0, round, used, Budget.Open).calls;
    DeadlineFirst(j, c.limits, 0, round, used);
    RoundIsAsked(c, j, round, turn);
  }

  lemma ExecutionIsAsked(c: Config, j: Journal, round: nat, call: Call)
    requires Under(j, round) && round <= c.limits.maxTurns && InTime(j, round)
    requires Replay.UsedBefore(j, round) < c.limits.maxTurns && Replay.DelegatedAt(j, round)
    requires call in Executed(j, c.limits, 0, round, Replay.UsedBefore(j, round) + j[Turn(round)].value.turns).calls
    ensures call in Calls(c, j)
  {
    var used := Replay.UsedBefore(j, round);
    hide Workflow.Executed, Workflow.Branches;
    Replay.PassingTurn(j, c.limits, 0, round, used, Budget.Open);
    DeadlineFirst(j, c.limits, 0, round, used);
    hide Workflow.OneRound;
    RoundIsAsked(c, j, round, call);
  }

  lemma ScanIsAsked(c: Config, j: Journal, round: nat)
    requires Under(j, round) && round <= c.limits.maxTurns && InTime(j, round)
    requires Replay.UsedBefore(j, round) < c.limits.maxTurns && Replay.DelegatedAt(j, round) && Scan(round) !in j
    ensures Call(Scan(round), Plain) in Calls(c, j)
  {
    ExecutionIsAsked(c, j, round, Call(Scan(round), Plain));
  }

  /** The one branch of a round that was scanned with a single subtask. */
  lemma BranchIsAsked(c: Config, j: Journal, round: nat, id: nat, call: Call)
    requires Under(j, round) && round <= c.limits.maxTurns && InTime(j, round)
    requires Replay.UsedBefore(j, round) < c.limits.maxTurns && Replay.DelegatedAt(j, round)
    requires Scan(round) in j && j[Scan(round)] == Returned(Scanned(false, {id}))
    requires call in Branch(j, id, 0).calls
    ensures call in Calls(c, j)
  {
    hide Workflow.Branch;
    assert call in Branches(j, {id}).calls;
    var used := Replay.UsedBefore(j, round) + j[Turn(round)].value.turns;
    hide Workflow.Branches, Workflow.Rounds;
    assert call in Executed(j, c.limits, 0, round, used).calls;
    ExecutionIsAsked(c, j, round, call);
  }

  // ---- one round, as far as its scan -------------------------------------------------------------------

  const DRAFT := Subtasks.Draft("retired", "work", [], map[])

  /** Midnight, a model that delegates one subtask, and a type nobody can resolve any more. */
  function Delegated1(): Oracle {
    Oracle(0, "", Unusable(Subtasks.Recipe("retired", 0), "unknown type"), Yielded, Delegating("on it", [DRAFT]), 1)
  }

  /** The Task may delegate, and has time. */
  predicate Roomy(c: Config) {
    c.limits.maxTurns > 0 && c.limits.maxWallMs > 0 && c.max >= 1
  }

  lemma JournalGrows(j: Journal, round: nat, n: StepName, r: Workflow.Record)
    requires Under(j, round) && n !in j
    requires n.Deadline? || n.Turn? || n.Scan? ==> n.round >= round
    ensures Under(j[n := r], round) && Replay.UsedBefore(j[n := r], round) == Replay.UsedBefore(j, round)
  {
    var k := j[n := r];
    forall s | 0 <= s < round
      ensures Replay.Timed(k, s) && Replay.Passed(k, s)
    {
      assert Replay.Timed(j, s) && Replay.Passed(j, s);
      Replay.BranchesReplay(j, k, j[Scan(s)].value.ids);
    }
    UsedStays(j, k, round);
  }

  ghost predicate SameTurns(j: Journal, k: Journal, round: nat) {
    forall s :: 0 <= s < round ==> (Turn(s) in j <==> Turn(s) in k) && (Turn(s) in j ==> k[Turn(s)] == j[Turn(s)])
  }

  lemma {:induction false} UsedStays(j: Journal, k: Journal, round: nat)
    requires SameTurns(j, k, round)
    ensures Replay.UsedBefore(k, round) == Replay.UsedBefore(j, round)
  {
    if round > 0 {
      UsedStays(j, k, round - 1);
    }
  }

  /** The deadline is read in time. */
  lemma ReadsDeadline(c: Config, w: World, v: World, round: nat) returns (u: World)
    requires Roomy(c) && AtRound(c, v, round) && round <= c.limits.maxTurns && Reaches(c, w, v)
    ensures Inv(c, u) && Reaches(c, w, u)
    ensures u == v.(journal := v.journal[Deadline(round) := Returned(Flag(false))])
  {
    hide Inv, Under, Calls, Reaches;
    var call := Call(Deadline(round), Since(0));
    DeadlineIsAsked(c, v.journal, round);
    GoesThrough(c, w, v, call, Delegated1(), Flag(false));
    u := Progress.Stepped(c, v, call, Delegated1(), Flag(false));
  }

  /** A world whose round has its deadline, and nothing else. */
  ghost predicate AtTurn(c: Config, v: World, round: nat) {
    && Inv(c, v) && v.bodies == map[] && v.posted == []
    && Final(c) !in v.store.session && !Tasks.IsCanceled(v.store.tasks, c.taskId)
    && Turn(round) !in v.journal && Of(c, v.store, round) == {}
    && OpenTurnCall(c, v.journal, round) in Calls(c, v.journal)
  }

  /** The turn's body up to its commit: one subtask, under the table's next id. */
  lemma TurnCommits(c: Config, w: World, v: World, round: nat) returns (u: World)
    requires Roomy(c) && AtTurn(c, v, round) && Reaches(c, w, v)
    ensures Inv(c, u) && Reaches(c, w, u)
    ensures u.journal == v.journal && u.posted == [] && u.store.tasks == v.store.tasks && Final(c) !in u.store.session
    ensures u.bodies == map[Turn(round) := Flight(OpenTurnCall(c, v.journal, round).input, Finished(Turned(Delegated, 1)))]
    ensures u.store.subtasks == Subtasks.Create(v.store.subtasks, c.taskId, round, [DRAFT], c.max, 0)
  {
    hide Inv, Reaches, Calls, Subtasks.Create, Opening, Onwards, Next, Enabled, Of;
    var n, call, o := Turn(round), OpenTurnCall(c, v.journal, round), Delegated1();
    Progress.TurnOpens(c, v.store, call, o);
    Progress.StartLands(c, v, call, o);
    Goes(c, w, v, Start(call, o));
    var v1 := Next(c, v, Start(call, o));
    DelegationAppends(c, v1.store, round);
    Progress.ContinueLands(c, v1, n, o);
    Goes(c, w, v1, Continue(n, o));
    var v2 := Next(c, v1, Continue(n, o));
    DelegationCommits(c, v2.store, round, v2.bodies[n].body);
    Progress.ContinueLands(c, v2, n, o);
    Goes(c, w, v2, Continue(n, o));
    u := Next(c, v2, Continue(n, o));
  }

  lemma DelegationAppends(c: Config, s: Store, round: nat)
    ensures
      var seg := Onwards(c, s, Turn(round), Inferring, Delegated1());
      && seg.store.tasks == s.tasks && seg.store.subtasks == s.subtasks
      && (Final(c) in seg.store.session ==> Final(c) in s.session)
      && seg.body.Some? && seg.body.value.Appended? && seg.body.value.turns == 1
      && seg.body.value.inference.Delegating? && seg.body.value.inference.drafts == [DRAFT]
  {}

  lemma DelegationCommits(c: Config, s: Store, round: nat, body: Body)
    requires !Tasks.IsCanceled(s.tasks, c.taskId) && c.max >= 1
    requires body.Appended? && body.turns == 1 && body.inference.Delegating? && body.inference.drafts == [DRAFT]
    ensures
      var seg := Onwards(c, s, Turn(round), body, Delegated1());
      && seg.store == s.(subtasks := Subtasks.Create(s.subtasks, c.taskId, round, [DRAFT], c.max, 0))
      && seg.body == Some(Finished(Turned(Delegated, 1)))
  {
    hide Subtasks.Create;
  }

  /** The commit's single row. */
  lemma OneRow(c: Config, s: Store, round: nat)
    requires Sound(c, s) && Of(c, s, round) == {} && c.max >= 1
    ensures
      var t := s.(subtasks := Subtasks.Create(s.subtasks, c.taskId, round, [DRAFT], c.max, 0));
      var id := s.subtasks.nextId;
      && id !in s.subtasks.rows && Of(c, t, round) == {id}
      && id in t.subtasks.rows && t.subtasks.rows[id].status.Pending? && t.subtasks.rows[id].taskId == c.taskId
  {
    Subtasks.BelowNext(s.subtasks, c.max);
    Subtasks.CreatedRowsAreTheDrafts(s.subtasks, c.taskId, round, [DRAFT], c.max, 0);
    Subtasks.InsertedRows(s.subtasks, c.taskId, round, Subtasks.Ceiling(s.subtasks, c.taskId, s.subtasks.nextId), [DRAFT], 0);
  }

  /** The turn is recorded: at its price, or for nothing when its body crashed after the commit. */
  lemma TurnEnds(c: Config, w: World, v: World, round: nat, call: Call, free: bool) returns (u: World)
    requires Inv(c, v) && Reaches(c, w, v)
    requires v.bodies == map[Turn(round) := Flight(call.input, Finished(Turned(Delegated, 1)))]
    requires call.name == Turn(round) && call in Calls(c, v.journal) && Turn(round) !in v.journal
    requires Final(c) !in v.store.session && !Tasks.IsCanceled(v.store.tasks, c.taskId) && Of(c, v.store, round) != {}
    ensures Inv(c, u) && Reaches(c, w, u)
    ensures u.bodies == map[] && u.posted == v.posted && u.store == v.store
    ensures u.journal == v.journal[Turn(round) := Returned(Turned(Delegated, if free then 0 else 1))]
  {
    hide Inv, Reaches, Calls;
    assert v.bodies - {Turn(round)} == map[];
    if free {
      var v1 := Crashes(c, w, v, Turn(round));
      GoesThrough(c, w, v1, call, Delegated1(), Turned(Delegated, 0));
      u := Progress.Stepped(c, v1, call, Delegated1(), Turned(Delegated, 0));
    } else {
      Goes(c, w, v, Record(Turn(round)));
      u := Next(c, v, Record(Turn(round)));
    }
  }

  /** A round that was scanned with its one subtask, and is about to run it. */
  ghost predicate AtBranch(c: Config, u: World, round: nat, id: nat, turns: nat) {
    && Inv(c, u) && u.bodies == map[] && u.posted == []
    && Final(c) !in u.store.session && !Tasks.IsCanceled(u.store.tasks, c.taskId)
    && Under(u.journal, round) && InTime(u.journal, round) && Replay.UsedBefore(u.journal, round) < c.limits.maxTurns
    && Turn(round) in u.journal && u.journal[Turn(round)] == Returned(Turned(Delegated, turns))
    && Scan(round) in u.journal && u.journal[Scan(round)] == Returned(Scanned(false, {id}))
    && id in u.store.subtasks.rows && u.store.subtasks.rows[id].status.Pending? && u.store.subtasks.rows[id].taskId == c.taskId
    && Execute(id, 0) !in u.journal && FailBranch(id) !in u.journal && Deadline(round + 1) !in u.journal
  }

  lemma RoundRunsToItsBranch(c: Config, w: World, v: World, round: nat, free: bool) returns (u: World, id: nat)
    requires Roomy(c) && AtRound(c, v, round) && round <= c.limits.maxTurns && Reaches(c, w, v)
    requires Replay.UsedBefore(v.journal, round) < c.limits.maxTurns
    ensures Reaches(c, w, u) && AtBranch(c, u, round, id, if free then 0 else 1)
    ensures Replay.UsedBefore(u.journal, round) == Replay.UsedBefore(v.journal, round)
    ensures SameTurns(v.journal, u.journal, round)
  {
    hide Inv, Under, Reaches, Calls, Subtasks.Create, Replay.UsedBefore, Opening, Progress.Stepped, Tasks.IsCanceled, Owing;
    RoundIsNew(c, v, round);
    var v1 := ReadsDeadline(c, w, v, round);
    JournalGrows(v.journal, round, Deadline(round), Returned(Flag(false)));
    TurnIsAsked(c, v1.journal, round);
    var v2 := TurnCommits(c, w, v1, round);
    id := v.store.subtasks.nextId;
    InvSound(c, v1);
    OneRow(c, v1.store, round);
    assert Of(c, v2.store, round) == {id};
    FreshIdHasNoStep(c, v1, id, Execute(id, 0));
    FreshIdHasNoStep(c, v1, id, FailBranch(id));
    var v3 := TurnEnds(c, w, v2, round, OpenTurnCall(c, v1.journal, round), free);
    var turns := if free then 0 else 1;
    JournalGrows(v1.journal, round, Turn(round), Returned(Turned(Delegated, turns)));
    u := ScansRound(c, w, v3, round, id);
    JournalGrows(v3.journal, round, Scan(round), Returned(Scanned(false, {id})));
  }

  lemma InvSound(c: Config, w: World)
    requires Inv(c, w)
    ensures Sound(c, w.store)
  {}

  lemma ScansRound(c: Config, w: World, v: World, round: nat, id: nat) returns (u: World)
    requires Inv(c, v) && Reaches(c, w, v) && v.bodies == map[]
    requires Under(v.journal, round) && round <= c.limits.maxTurns && InTime(v.journal, round)
    requires Replay.UsedBefore(v.journal, round) < c.limits.maxTurns && Replay.DelegatedAt(v.journal, round) && Scan(round) !in v.journal
    requires !Tasks.IsCanceled(v.store.tasks, c.taskId) && Of(c, v.store, round) == {id}
    requires id in v.store.subtasks.rows && v.store.subtasks.rows[id].status.Pending?
    ensures Inv(c, u) && Reaches(c, w, u)
    ensures u == v.(journal := v.journal[Scan(round) := Returned(Scanned(false, {id}))])
  {
    hide Inv, Under, Reaches, Calls, Replay.UsedBefore;
    var call := Call(Scan(round), Plain);
    ScanIsAsked(c, v.journal, round);
    assert Owing(v.store, c.taskId, round) == {id};
    GoesThrough(c, w, v, call, Delegated1(), Scanned(false, {id}));
    u := Progress.Stepped(c, v, call, Delegated1(), Scanned(false, {id}));
  }

  // ---- behind the round loop ------------------------------------------------------------------------------

  /** The branch ends: its type cannot be resolved, which fails the row for good. */
  lemma RoundPasses(c: Config, w: World, v: World, round: nat, id: nat, turns: nat) returns (u: World)
    requires AtBranch(c, v, round, id, turns) && round <= c.limits.maxTurns && Reaches(c, w, v)
    ensures AtRound(c, u, round + 1) && Reaches(c, w, u)
    ensures u.journal == v.journal[Execute(id, 0) := Returned(Flag(true))]
  {
    hide Inv, Under, Reaches, Calls, Replay.UsedBefore;
    var call, o := Call(Execute(id, 0), Plain), Delegated1();
    assert call in Branch(v.journal, id, 0).calls;
    BranchIsAsked(c, v.journal, round, id, call);
    GoesThrough(c, w, v, call, o, Flag(true));
    u := Progress.Stepped(c, v, call, o, Flag(true));
    JournalGrows(v.journal, round, Execute(id, 0), Returned(Flag(true)));
    PassedNow(u.journal, round, id);
  }

  lemma PassedNow(j: Journal, round: nat, id: nat)
    requires Under(j, round) && InTime(j, round) && Replay.DelegatedAt(j, round)
    requires Scan(round) in j && j[Scan(round)] == Returned(Scanned(false, {id}))
    requires Execute(id, 0) in j && j[Execute(id, 0)] == Returned(Flag(true))
    ensures Under(j, round + 1)
  {
    assert Branch(j, id, 0).end == End.Ended;
    assert Replay.Passed(j, round);
  }

  /** The first two steps. */
  lemma Begins(c: Config, w: World) returns (v: World)
    requires Safety.Initial(c, w) && !Tasks.IsCanceled(w.store.tasks, c.taskId) && Roomy(c)
    ensures AtRound(c, v, 0) && Reaches(c, w, v) && v.journal == Progress.J2()
    ensures Silence.Closed(c, v.store) ==> Silence.Closed(c, w.store)
  {
    var working, started, o := Call(Working, Plain), Call(Started, Plain), Delegated1();
    Progress.FirstCalls(c);
    Safety.InitiallyInv(c, w);
    Stays(c, w);
    hide Inv, Reaches, Calls;
    GoesThrough(c, w, w, working, o, Flag(true));
    var w1 := Progress.Stepped(c, w, working, o, Flag(true));
    assert w1.journal == Progress.J1();
    GoesThrough(c, w, w1, started, o, Instant(0));
    v := Progress.Stepped(c, w1, started, o, Instant(0));
  }

  /** From one round to the last: the first was free, every later one costs a turn. */
  ghost predicate OnlyFirstFree(j: Journal, round: nat) {
    && Replay.UsedBefore(j, round) == (if round == 0 then 0 else round - 1)
    && forall r :: 0 <= r < round ==> Replay.DelegatedAt(j, r) && (Replay.FreeRound(j, r) <==> r == 0)
  }

  lemma {:induction false} RoundsPass(c: Config, w: World, v: World, round: nat) returns (u: World)
    requires Roomy(c) && round <= c.limits.maxTurns + 1 && Reaches(c, w, v)
    requires AtRound(c, v, round) && OnlyFirstFree(v.journal, round)
    ensures Reaches(c, w, u) && AtRound(c, u, c.limits.maxTurns + 1) && OnlyFirstFree(u.journal, c.limits.maxTurns + 1)
    decreases c.limits.maxTurns + 1 - round
  {
    hide AtRound, Reaches, OnlyFirstFree;
    if round == c.limits.maxTurns + 1 {
      u := v;
    } else {
      u := OnePasses(c, w, v, round);
      u := RoundsPass(c, w, u, round + 1);
    }
  }

  lemma OnePasses(c: Config, w: World, v: World, round: nat) returns (u: World)
    requires Roomy(c) && round <= c.limits.maxTurns && Reaches(c, w, v)
    requires AtRound(c, v, round) && OnlyFirstFree(v.journal, round)
    ensures Reaches(c, w, u) && AtRound(c, u, round + 1) && OnlyFirstFree(u.journal, round + 1)
  {
    hide AtRound, Reaches, AtBranch, Replay.UsedBefore, Replay.DelegatedAt, Replay.FreeRound;
    var turns := if round == 0 then 0 else 1;
    var v1, id := RoundRunsToItsBranch(c, w, v, round, round == 0);
    BranchTurn(c, v1, round, id, turns);
    u := RoundPasses(c, w, v1, round, id, turns);
    OneMoreRound(v.journal, u.journal, round);
  }

  lemma BranchTurn(c: Config, v: World, round: nat, id: nat, turns: nat)
    requires AtBranch(c, v, round, id, turns)
    ensures Turn(round) in v.journal && v.journal[Turn(round)] == Returned(Turned(Delegated, turns))
  {}

  lemma OneMoreRound(j: Journal, k: Journal, round: nat)
    requires OnlyFirstFree(j, round) && SameTurns(j, k, round)
    requires Turn(round) in k && k[Turn(round)] == Returned(Turned(Delegated, if round == 0 then 0 else 1))
    ensures OnlyFirstFree(k, round + 1)
  {
    hide Replay.UsedBefore;
    forall r | 0 <= r < round
      ensures Turn(r) in j && Replay.DelegatedAt(k, r) && (Replay.FreeRound(k, r) <==> r == 0)
    {
      assert Replay.DelegatedAt(j, r) && (Replay.FreeRound(j, r) <==> r == 0);
    }
    UsedStays(j, k, round);
    UsedByOne(k, round);
  }

  lemma UsedByOne(k: Journal, round: nat)
    requires Turn(round) in k && k[Turn(round)].Returned? && k[Turn(round)].value.Turned?
    ensures Replay.UsedBefore(k, round + 1) == Replay.UsedBefore(k, round) + k[Turn(round)].value.turns
  {}

  /** Behind the round loop, with a single round that was metered nothing. */
  ghost predicate BehindTheLoop(c: Config, v: World) {
    && Replay.TAIL in Calls(c, v.journal)
    && forall r :: 0 <= r <= c.limits.maxTurns ==> Replay.DelegatedAt(v.journal, r) && (Replay.FreeRound(v.journal, r) <==> r == 0)
  }

  /**
   * The delivery behind the round loop is reached, under every budget, by a run in
   * which a single round was recovered from its rows for free: its body committed,
   * crashed and was started again.
   */
  lemma OneFreeRoundReachesTheTail(c: Config, w: World)
    requires Safety.Initial(c, w) && !Tasks.IsCanceled(w.store.tasks, c.taskId) && Roomy(c)
    ensures exists v :: Reaches(c, w, v) && BehindTheLoop(c, v)
  {
    hide Reaches;
    var v := Begins(c, w);
    v := RoundsPass(c, w, v, 0);
    Replay.RunReachesTheTailExactlyWhen(v.journal, c.limits);
  }

  // ---- out of time ------------------------------------------------------------------------------------------

  lemma PaidRoundPasses(c: Config, w: World, v: World, round: nat) returns (u: World)
    requires Roomy(c) && round < c.limits.maxTurns && Reaches(c, w, v)
    requires AtRound(c, v, round) && Replay.UsedBefore(v.journal, round) == round
    ensures Reaches(c, w, u) && AtRound(c, u, round + 1) && Replay.UsedBefore(u.journal, round + 1) == round + 1
  {
    hide AtRound, Reaches, AtBranch, Replay.UsedBefore;
    var v1, id := RoundRunsToItsBranch(c, w, v, round, false);
    BranchTurn(c, v1, round, id, 1);
    u := RoundPasses(c, w, v1, round, id, 1);
    UsedStays(v1.journal, u.journal, round);
    UsedByOne(u.journal, round);
  }

  lemma {:induction false} PaidRoundsPass(c: Config, w: World, v: World, round: nat, last: nat) returns (u: World)
    requires Roomy(c) && round <= last < c.limits.maxTurns && Reaches(c, w, v)
    requires AtRound(c, v, round) && Replay.UsedBefore(v.journal, round) == round
    ensures Reaches(c, w, u) && AtRound(c, u, last) && Replay.UsedBefore(u.journal, last) == last
    decreases last - round
  {
    hide AtRound, Reaches, Replay.UsedBefore;
    if round == last {
      u := v;
    } else {
      u := PaidRoundPasses(c, w, v, round);
      u := PaidRoundsPass(c, w, u, round + 1, last);
    }
  }

  /** The deadline is read when the Task's time is up, to the millisecond. */
  lemma ReadsDeadlineLate(c: Config, w: World, v: World, round: nat) returns (u: World)
    requires Roomy(c) && AtRound(c, v, round) && round <= c.limits.maxTurns && Reaches(c, w, v)
    ensures Reaches(c, w, u) && u.journal == v.journal[Deadline(round) := Returned(Flag(true))]
  {
    hide Inv, Under, Calls, Reaches;
    var call, o := Call(Deadline(round), Since(0)), Delegated1().(now := c.limits.maxWallMs);
    DeadlineIsAsked(c, v.journal, round);
    GoesThrough(c, w, v, call, o, Flag(true));
    u := Progress.Stepped(c, v, call, o, Flag(true));
  }

  lemma LastTurnIsAsked(c: Config, j: Journal, round: nat, call: Call)
    requires Under(j, round) && round <= c.limits.maxTurns
    requires Deadline(round) in j && j[Deadline(round)] == Returned(Flag(true))
    requires call == Call(Turn(round), Turning(Budget.Final, c.limits.maxTurns - Replay.UsedBefore(j, round)))
    ensures call in Calls(c, j)
  {
    var used := Replay.UsedBefore(j, round);
    assert call in OneRound(j, c.limits, 0, round, used, Budget.Final).calls;
    DeadlineFirst(j, c.limits, 0, round, used);
    RoundIsAsked(c, j, round, call);
  }

  lemma RoundIsUnder(c: Config, v: World, round: nat)
    requires AtRound(c, v, round)
    ensures Under(v.journal, round) && Deadline(round) !in v.journal
  {}

  /** The round is overdue, and is asked for its last words with turns unspent. */
  ghost predicate Overdue(c: Config, v: World, round: nat, remaining: nat) {
    && Deadline(round) in v.journal && v.journal[Deadline(round)] == Returned(Flag(true))
    && Call(Turn(round), Turning(Budget.Final, remaining)) in Calls(c, v.journal)
  }

  /**
   * Any round can be the last for want of time: behind earlier rounds that cost a
   * turn each and with turns to spare, the clock alone makes it final.
   */
  lemma AnyRoundCanBeOverdue(c: Config, w: World, round: nat)
    requires Safety.Initial(c, w) && !Tasks.IsCanceled(w.store.tasks, c.taskId) && Roomy(c) && round < c.limits.maxTurns
    ensures exists v :: Reaches(c, w, v) && Overdue(c, v, round, c.limits.maxTurns - round)
  {
    hide Reaches, AtRound, Safety.Initial;
    var v := Begins(c, w);
    v := PaidRoundsPass(c, w, v, 0, round);
    hide Replay.UsedBefore, Under, Calls;
    RoundIsUnder(c, v, round);
    var u := ReadsDeadlineLate(c, w, v, round);
    JournalGrows(v.journal, round, Deadline(round), Returned(Flag(true)));
    LastTurnIsAsked(c, u.journal, round, Call(Turn(round), Turning(Budget.Final, c.limits.maxTurns - round)));
    assert Overdue(c, u, round, c.limits.maxTurns - round);
  }

  // ---- a rejected branch ---------------------------------------------------------------------------------------

  ghost predicate BranchRejected(c: Config, v: World, id: nat) {
    && Branch(v.journal, id, 0).end == Rejected(Fault) && Orchestrate(v.journal, c.limits).end == Rejected(Fault)
    && Safety.OpenRow(c, v.store, id)
  }

  /**
   * A chunk step and the step that is to fail its branch both exhaust their retries:
   * the branch rejects, the orchestration with it, and the row stays open.
   */
  lemma ABranchCanReject(c: Config, w: World)
    requires Safety.Initial(c, w) && !Tasks.IsCanceled(w.store.tasks, c.taskId) && Roomy(c)
    ensures exists v, id :: Reaches(c, w, v) && BranchRejected(c, v, id)
  {
    hide Reaches, BranchRejected;
    var v := Begins(c, w);
    var u, id := RoundRunsToItsBranch(c, w, v, 0, false);
    v := BranchThrows(c, w, u, id);
  }

  lemma BranchThrows(c: Config, w: World, v: World, id: nat) returns (u: World)
    requires Roomy(c) && AtBranch(c, v, 0, id, 1) && Reaches(c, w, v)
    ensures Reaches(c, w, u) && BranchRejected(c, u, id)
  {
    hide Inv, Under, Reaches, Calls, Orchestrate, Replay.UsedBefore;
    var execute, fail := Call(Execute(id, 0), Plain), Call(FailBranch(id), Because(RetriesExhausted));
    assert execute in Branch(v.journal, id, 0).calls;
    BranchIsAsked(c, v.journal, 0, id, execute);
    var v1 := GivesUp(c, w, v, execute);
    JournalGrows(v.journal, 0, Execute(id, 0), Threw);
    assert fail in Branch(v1.journal, id, 0).calls;
    BranchIsAsked(c, v1.journal, 0, id, fail);
    u := GivesUp(c, w, v1, fail);
    JournalGrows(v1.journal, 0, FailBranch(id), Threw);
    RejectionEscapes(c, u.journal, id);
  }

  /** A step that exhausts its retries without a body under way. */
  lemma GivesUp(c: Config, w: World, v: World, call: Call) returns (u: World)
    requires Inv(c, v) && Reaches(c, w, v) && v.bodies == map[] && call in Calls(c, v.journal) && call.name !in v.journal
    ensures Inv(c, u) && Reaches(c, w, u) && u == v.(journal := v.journal[call.name := Threw])
  {
    hide Inv, Reaches, Calls;
    Goes(c, w, v, GiveUp(call.name));
    u := Next(c, v, GiveUp(call.name));
    assert u.bodies == v.bodies;
  }

  lemma RejectionEscapes(c: Config, j: Journal, id: nat)
    requires Under(j, 0) && InTime(j, 0) && c.limits.maxTurns > 0
    requires Turn(0) in j && j[Turn(0)].Returned? && j[Turn(0)].value.Turned? && j[Turn(0)].value.verdict.Delegated?
    requires Scan(0) in j && j[Scan(0)] == Returned(Scanned(false, {id}))
    requires Execute(id, 0) in j && j[Execute(id, 0)].Threw? && FailBranch(id) in j && j[FailBranch(id)].Threw?
    ensures Branch(j, id, 0).end == Rejected(Fault) && Orchestrate(j, c.limits).end == Rejected(Fault)
  {
    assert Branch(j, id, 0).end == Rejected(Fault);
    hide Branch;
    assert Branches(j, {id}).end == Rejected(Fault);
    hide Branches;
    assert Executed(j, c.limits, 0, 0, j[Turn(0)].value.turns).end == Rejected(Fault);
    hide Executed;
    assert OneRound(j, c.limits, 0, 0, 0, Budget.Open).end == Rejected(Fault);
    DeadlineFirst(j, c.limits, 0, 0, 0);
  }

  // ---- a decided Task that ends untold ------------------------------------------------------------------------

  function Answered1(reply: string): Oracle {
    Delegated1().(inference := Replying(reply))
  }

  /** The first round's turn answers. */
  lemma Answers(c: Config, w: World, v: World, reply: string) returns (u: World)
    requires Roomy(c) && AtTurn(c, v, 0) && Reaches(c, w, v)
    ensures Inv(c, u) && Reaches(c, w, u)
    ensures u.store.tasks == v.store.tasks && u.bodies == map[] && u.posted == []
    ensures u.journal == v.journal[Turn(0) := Returned(Turned(Replied(reply), 1))]
  {
    var call, o := OpenTurnCall(c, v.journal, 0), Answered1(reply);
    hide Inv, Reaches, Calls, Progress.TurnActions;
    Progress.AnsweringTurn(c, v, call, o, reply);
    u := Safety.After(c, v, Progress.TurnActions(call, o));
    Safety.RunsKeepInv(c, v, Progress.TurnActions(call, o));
    GoesOn(c, w, v, Progress.TurnActions(call, o), u);
  }

  /** The start of every journal below: a first round, in time, that answers. */
  ghost predicate AnsweredFirst(j: Journal, reply: string) {
    && Under(j, 0) && InTime(j, 0)
    && Turn(0) in j && j[Turn(0)] == Returned(Turned(Replied(reply), 1))
  }

  lemma AnswerIsDelivered(j: Journal, limits: Limits, reply: string)
    requires AnsweredFirst(j, reply) && limits.maxTurns > 0
    ensures
      var main, delivery := Orchestrate(j, limits), Deliver(j, false, Answer(reply));
      delivery.calls <= main.calls && main.end == delivery.end
  {
    var main, delivery := Orchestrate(j, limits), Deliver(j, false, Answer(reply));
    hide Deliver;
    assert Replay.UsedBefore(j, 0) == 0;
    var round := OneRound(j, limits, 0, 0, 0, Budget.Open);
    assert delivery.calls <= round.calls && round.end == delivery.end;
    DeadlineFirst(j, limits, 0, 0, 0);
  }

  /** The ordinary save is applied by an attempt that crashes, and its step runs out of retries. */
  lemma SavesAndGivesUp(c: Config, w: World, v: World, reply: string) returns (u: World)
    requires Inv(c, v) && Reaches(c, w, v) && v.bodies == map[] && v.posted == [] && c.limits.maxTurns > 0
    requires AnsweredFirst(v.journal, reply) && Complete(false) !in v.journal && !Silence.Closed(c, v.store)
    ensures Inv(c, u) && Reaches(c, w, u) && u.bodies == map[] && u.posted == []
    ensures AnsweredFirst(u.journal, reply) && Silence.OrdinaryGaveUp(u.journal)
    ensures Complete(true) in u.journal ==> Complete(true) in v.journal
    ensures Tasks.TaskAt(u.store.tasks, c.taskId) == Some(TerminalTask(c, Answer(reply), "", 0))
  {
    hide Inv, Reaches, Calls, Opening, Next, Enabled, AnsweredFirst, Silence.Closed;
    var call, o := Call(Complete(false), Delivering(Answer(reply))), Answered1(reply);
    OrdinaryIsAsked(c, v.journal, reply);
    SaveApplies(c, v.store, call, o, reply);
    Progress.StartLands(c, v, call, o);
    Goes(c, w, v, Start(call, o));
    var v1 := Next(c, v, Start(call, o));
    u := Crashes(c, w, v1, Complete(false));
    u := GivesUp(c, w, u, call);
    AnsweredStays(v.journal, Complete(false), Threw, reply);
  }

  lemma AnsweredStays(j: Journal, n: StepName, r: Workflow.Record, reply: string)
    requires AnsweredFirst(j, reply) && n.Complete?
    ensures AnsweredFirst(j[n := r], reply)
  {}

  lemma OrdinaryIsAsked(c: Config, j: Journal, reply: string)
    requires AnsweredFirst(j, reply) && Complete(false) !in j && c.limits.maxTurns > 0
    ensures Call(Complete(false), Delivering(Answer(reply))) in Calls(c, j)
  {
    AnswerIsDelivered(j, c.limits, reply);
    assert Call(Complete(false), Delivering(Answer(reply))) in Deliver(j, false, Answer(reply)).calls;
    hide Orchestrate, Deliver;
  }

  lemma SaveApplies(c: Config, s: Store, call: Call, o: Oracle, reply: string)
    requires call == Call(Complete(false), Delivering(Answer(reply))) && !Silence.Closed(c, s) && o.now == 0 && o.words == ""
    ensures
      var seg := Opening(c, s, call, o);
      && seg.body.Some? && seg.body.value.Finished?
      && Tasks.TaskAt(seg.store.tasks, c.taskId) == Some(TerminalTask(c, Answer(reply), "", 0))
  {}

  /** The one body under way is lost. */
  lemma Crashes(c: Config, w: World, v: World, n: StepName) returns (u: World)
    requires Inv(c, v) && Reaches(c, w, v) && v.bodies.Keys == {n}
    ensures Inv(c, u) && Reaches(c, w, u) && u == v.(bodies := map[])
  {
    hide Inv, Reaches;
    assert v.bodies - {n} == map[];
    Goes(c, w, v, Crash(n));
    u := Next(c, v, Crash(n));
  }

  lemma RecoveryDelivers(c: Config, j: Journal, reply: string)
    requires AnsweredFirst(j, reply) && Silence.OrdinaryGaveUp(j) && c.limits.maxTurns > 0
    ensures Deliver(j, true, AbandonedFailure).calls <= Calls(c, j)
    ensures Deliver(j, true, AbandonedFailure).end == End.Ended ==> Run(j, c.limits).end == End.Ended
  {
    AnswerIsDelivered(j, c.limits, reply);
    assert Deliver(j, false, Answer(reply)).end == Rejected(Fault);
    hide Orchestrate, Deliver;
  }

  lemma SaveIsRefused(c: Config, s: Store, call: Call, o: Oracle, reply: string)
    requires call == Call(Complete(true), Delivering(AbandonedFailure))
    requires Tasks.TaskAt(s.tasks, c.taskId) == Some(TerminalTask(c, Answer(reply), "", 0))
    ensures Opening(c, s, call, o).body == Some(Finished(Saved(None))) && Opening(c, s, call, o).store.tasks == s.tasks
  {}

  /** The recovery's save meets the row that the ordinary one left. */
  lemma RecoveryIsRefused(c: Config, w: World, v: World, reply: string) returns (u: World)
    requires Inv(c, v) && Reaches(c, w, v) && v.bodies == map[] && v.posted == [] && c.limits.maxTurns > 0
    requires AnsweredFirst(v.journal, reply) && Silence.OrdinaryGaveUp(v.journal) && Complete(true) !in v.journal
    requires Tasks.TaskAt(v.store.tasks, c.taskId) == Some(TerminalTask(c, Answer(reply), "", 0))
    ensures Reaches(c, w, u) && u.posted == [] && u.store.tasks == v.store.tasks
    ensures Run(u.journal, c.limits).end == End.Ended
  {
    hide Inv, Reaches, Calls, Run, Opening, AnsweredFirst, TerminalTask;
    var call, o := Call(Complete(true), Delivering(AbandonedFailure)), Answered1(reply);
    var j := v.journal[Complete(true) := Returned(Saved(None))];
    assert call in Deliver(v.journal, true, AbandonedFailure).calls && Deliver(j, true, AbandonedFailure).end == End.Ended;
    hide Deliver;
    RecoveryDelivers(c, v.journal, reply);
    SaveIsRefused(c, v.store, call, o, reply);
    GoesThrough(c, w, v, call, o, Saved(None));
    u := Progress.Stepped(c, v, call, o, Saved(None));
    AnsweredStays(v.journal, Complete(true), Returned(Saved(None)), reply);
    RecoveryDelivers(c, j, reply);
  }

  /** The Workflow ended without an error and without a callback, and the row holds the reply. */
  ghost predicate EndedUntold(c: Config, v: World, reply: string) {
    && Run(v.journal, c.limits).end == End.Ended && v.posted == []
    && Tasks.TaskAt(v.store.tasks, c.taskId) == Some(Tasks.Task(c.taskId, c.contextId, Tasks.Completed, Some(reply), 0))
  }

  /**
   * A Task can be answered, stored as completed, and never called back: the save
   * lands, the attempt behind it crashes until its step gives up, and the
   * recovery's failure is refused by the row that the save left.
   */
  lemma ADecidedTaskCanEndUntold(c: Config, w: World, reply: string)
    requires Safety.Initial(c, w) && !Silence.Closed(c, w.store) && Roomy(c)
    ensures exists v :: Reaches(c, w, v) && EndedUntold(c, v, reply)
  {
    hide Reaches, Inv, AnsweredFirst, Run, Safety.Initial, Silence.Closed;
    var v := AnswersAtOnce(c, w, reply);
    v := SavesAndGivesUp(c, w, v, reply);
    v := RecoveryIsRefused(c, w, v, reply);
  }

  lemma AnswersAtOnce(c: Config, w: World, reply: string) returns (u: World)
    requires Safety.Initial(c, w) && !Silence.Closed(c, w.store) && Roomy(c)
    ensures Inv(c, u) && Reaches(c, w, u) && u.bodies == map[] && u.posted == [] && AnsweredFirst(u.journal, reply)
    ensures Complete(false) !in u.journal && Complete(true) !in u.journal && !Silence.Closed(c, u.store)
  {
    hide Safety.Initial, AtRound, AtTurn, Inv, Reaches, AnsweredFirst, Progress.J2, Progress.J3;
    var v := Begins(c, w);
    v := ComesToItsTurn(c, w, v);
    u := Answers(c, w, v, reply);
    FirstJournal(u.journal, reply);
  }

  lemma FirstJournal(j: Journal, reply: string)
    requires j == Progress.J3()[Turn(0) := Returned(Turned(Replied(reply), 1))]
    ensures AnsweredFirst(j, reply) && Complete(false) !in j && Complete(true) !in j
  {}

  lemma ComesToItsTurn(c: Config, w: World, v: World) returns (u: World)
    requires Roomy(c) && AtRound(c, v, 0) && v.journal == Progress.J2() && Reaches(c, w, v)
    ensures AtTurn(c, u, 0) && Reaches(c, w, u)
    ensures u.journal == Progress.J3() && u.store == v.store
  {
    assert Replay.UsedBefore(v.journal, 0) == 0;
    hide Inv, Under, Reaches, Calls, Replay.UsedBefore;
    RoundIsNew(c, v, 0);
    u := ReadsDeadline(c, w, v, 0);
    JournalGrows(v.journal, 0, Deadline(0), Returned(Flag(false)));
    TurnIsAsked(c, u.journal, 0);
  }
}
