/**
 * The Workflow body as a deterministic function of its journal.
 *
 * A durable step is asked for by name. Its recorded result, or the fault that was
 * left when its retries ran out, is what every later execution of the body reads.
 * A crash of the body loses nothing but its position, and the position is a
 * function of the journal. `Run` is that function: the calls the body makes, the
 * decisions it takes on the way, and how it ends.
 */
module Workflow {
  import opened Wrappers
  import opened Budget
  import Tasks

  const MAX_CHUNKS_PER_BRANCH: nat := 40

  datatype Limits = Limits(maxTurns: nat, maxWallMs: int)

  /** The durable steps. `abandoned` tells the recovery's delivery from the ordinary one. */
  datatype StepName =
    | Working
    | Started
    | Deadline(round: nat)
    | Turn(round: nat)
    | Scan(round: nat)
    | CancelRound(round: nat)
    | Execute(id: nat, chunk: nat)
    | FailBranch(id: nat)
    | Complete(abandoned: bool)
    | Sweep(abandoned: bool)
    | Notify(abandoned: bool)

  datatype FailureKind = Exhausted | Credential | GatewayCredential | UnknownCredential

  /** What a round's step returns, without the rows: only references cross a step. */
  datatype Verdict = Replied(reply: string) | Delegated | Failed(kind: FailureKind, error: string) | Canceled

  datatype Value =
    | Flag(b: bool)
    | Instant(ms: int)
    | Turned(verdict: Verdict, turns: nat)
    | Scanned(canceled: bool, ids: set<nat>)
    | Unit
    | Saved(task: Option<Tasks.Task>)

  /** A step's result, or the fault left when its retries were exhausted. */
  datatype Record = Returned(value: Value) | Threw

  type Journal = map<StepName, Record>

  /** Which terminal Task a delivery builds. */
  datatype Outcome = Answer(reply: string) | RoundFailure(kind: FailureKind, detail: string) | BudgetFailure | AbandonedFailure

  datatype GiveUp = TooManyChunks | RetriesExhausted

  /** What a step's body closes over. */
  datatype Input =
    | Plain
    | Since(startedAt: int)
    | Turning(mode: Mode, remaining: int)
    | Because(reason: GiveUp)
    | Delivering(outcome: Outcome)
    | Posting(task: Tasks.Task)

  datatype Call = Call(name: StepName, input: Input)

  datatype Decision = Decision(round: nat, turnsUsed: nat, mode: Mode)

  /** `AlreadyTerminal`: the terminal Task was saved and only its callback failed. */
  datatype Cause = Fault | AlreadyTerminal

  datatype End = Waiting | Ended | Rejected(cause: Cause)

  /** `turns` is what the rounds of this pass were metered. */
  datatype Pass = Pass(calls: set<Call>, decisions: seq<Decision>, turns: nat, end: End)

  function After(calls: set<Call>, p: Pass): Pass {
    p.(calls := calls + p.calls)
  }

  // ---- the body ---------------------------------------------------------------------

  /** Save the terminal Task, sweep, notify. A refused save ends the delivery without a callback. */
  function Deliver(j: Journal, abandoned: bool, outcome: Outcome): Pass {
    var complete := Call(Complete(abandoned), Delivering(outcome));
    if complete.name !in j then Pass({complete}, [], 0, Waiting)
    else
      match j[complete.name]
      case Returned(Saved(None)) => Pass({complete}, [], 0, Ended)
      case Returned(Saved(Some(task))) => After({complete}, NotifyAfterSweep(j, abandoned, task))
      case _ => Pass({complete}, [], 0, Rejected(Fault))
  }

  /** A sweep that keeps failing is logged and passed over; a callback that does is not. */
  function NotifyAfterSweep(j: Journal, abandoned: bool, task: Tasks.Task): Pass {
    var sweep := Call(Sweep(abandoned), Plain);
    var notify := Call(Notify(abandoned), Posting(task));
    if sweep.name !in j then Pass({sweep}, [], 0, Waiting)
    else if notify.name !in j then Pass({sweep, notify}, [], 0, Waiting)
    else if j[notify.name].Threw? then Pass({sweep, notify}, [], 0, Rejected(AlreadyTerminal))
    else Pass({sweep, notify}, [], 0, Ended)
  }

  /** The last resort of a branch: one more step, whose own exhaustion rejects the branch. */
  function FailAfterRetries(j: Journal, id: nat): Pass {
    var fail := Call(FailBranch(id), Because(RetriesExhausted));
    if fail.name !in j then Pass({fail}, [], 0, Waiting)
    else if j[fail.name].Threw? then Pass({fail}, [], 0, Rejected(Fault))
    else Pass({fail}, [], 0, Ended)
  }

  /** The chunk budget ran out; a failing `fail` step falls into the same catch as a chunk does. */
  function FailAfterChunks(j: Journal, id: nat): Pass {
    var fail := Call(FailBranch(id), Because(TooManyChunks));
    if fail.name in j && j[fail.name].Threw? then After({fail}, FailAfterRetries(j, id))
    else if fail.name in j then Pass({fail}, [], 0, Ended)
    else Pass({fail}, [], 0, Waiting)
  }

  /** One branch from chunk `chunk` on. */
  function Branch(j: Journal, id: nat, chunk: nat): Pass
    requires chunk <= MAX_CHUNKS_PER_BRANCH
    decreases MAX_CHUNKS_PER_BRANCH - chunk
  {
    if chunk == MAX_CHUNKS_PER_BRANCH then FailAfterChunks(j, id)
    else
      var execute := Call(Execute(id, chunk), Plain);
      if execute.name !in j then Pass({execute}, [], 0, Waiting)
      else
        match j[execute.name]
        case Returned(Flag(true)) => Pass({execute}, [], 0, Ended)
        case Returned(_) => After({execute}, Branch(j, id, chunk + 1))
        case Threw => After({execute}, FailAfterRetries(j, id))
  }

  /** All branches at once: a rejected one rejects the whole, while its siblings go on asking. */
  function Branches(j: Journal, ids: set<nat>): Pass {
    Pass(
      set id, c | id in ids && c in Branch(j, id, 0).calls :: c,
      [],
      0,
      if exists id :: id in ids && Branch(j, id, 0).end.Rejected? then Rejected(Fault)
      else if exists id :: id in ids && Branch(j, id, 0).end.Waiting? then Waiting
      else Ended)
  }

  function ModeOf(limits: Limits, used: nat, overdue: bool): Mode {
    if used >= limits.maxTurns || overdue then Final else Open
  }

  /** The round loop from round `round` on, with `used` turns metered so far. */
  function Rounds(j: Journal, limits: Limits, startedAt: int, round: nat, used: nat): Pass
    requires round <= limits.maxTurns + 1
    decreases limits.maxTurns + 1 - round, 1
  {
    if round > limits.maxTurns then Deliver(j, false, BudgetFailure)
    else
      var deadline := Call(Deadline(round), Since(startedAt));
      if deadline.name !in j then Pass({deadline}, [], 0, Waiting)
      else
        match j[deadline.name]
        case Returned(Flag(overdue)) => After({deadline}, OneRound(j, limits, startedAt, round, used, ModeOf(limits, used, overdue)))
        case _ => Pass({deadline}, [], 0, Rejected(Fault))
  }

  function OneRound(j: Journal, limits: Limits, startedAt: int, round: nat, used: nat, mode: Mode): Pass
    requires round <= limits.maxTurns
    decreases limits.maxTurns + 1 - round, 0
  {
    var turn := Call(Turn(round), Turning(mode, limits.maxTurns - used));
    var decision := Decision(round, used, mode);
    if turn.name !in j then Pass({turn}, [decision], 0, Waiting)
    else
      match j[turn.name]
      case Returned(Turned(verdict, turns)) =>
        var rest :=
          match verdict
          case Canceled => Pass({}, [], 0, Ended)
          case Failed(kind, error) => Deliver(j, false, RoundFailure(kind, error))
          case Replied(reply) => Deliver(j, false, Answer(reply))
          case Delegated => Executed(j, limits, startedAt, round, used + turns);
        Pass({turn} + rest.calls, [decision] + rest.decisions, turns + rest.turns, rest.end)
      case _ => Pass({turn}, [decision], 0, Rejected(Fault))
  }

  /** Run the round's branches to termination, then the next round. */
  function Executed(j: Journal, limits: Limits, startedAt: int, round: nat, used: nat): Pass
    requires round <= limits.maxTurns
    decreases limits.maxTurns + 1 - round, 0, 0
  {
    var scan := Call(Scan(round), Plain);
    if scan.name !in j then Pass({scan}, [], 0, Waiting)
    else
      match j[scan.name]
      case Returned(Scanned(true, _)) =>
        var cancel := Call(CancelRound(round), Plain);
        Pass({scan, cancel}, [], 0,
             if cancel.name !in j then Waiting else if j[cancel.name].Threw? then Rejected(Fault) else Ended)
      case Returned(Scanned(false, ids)) =>
        var branches := Branches(j, ids);
        if branches.end == Ended
        then After({scan} + branches.calls, Rounds(j, limits, startedAt, round + 1, used))
        else After({scan}, branches)
      case _ => Pass({scan}, [], 0, Rejected(Fault))
  }

  function Orchestrate(j: Journal, limits: Limits): Pass {
    var working := Call(Working, Plain);
    if working.name !in j then Pass({working}, [], 0, Waiting)
    else
      match j[working.name]
      case Returned(Flag(false)) => Pass({working}, [], 0, Ended)
      case Returned(Flag(true)) =>
        var started := Call(Started, Plain);
        if started.name !in j then Pass({working, started}, [], 0, Waiting)
        else
          (match j[started.name]
           case Returned(Instant(ms)) => After({working, started}, Rounds(j, limits, ms, 0, 0))
           case _ => Pass({working, started}, [], 0, Rejected(Fault)))
      case _ => Pass({working}, [], 0, Rejected(Fault))
  }

  /** The whole body: anything that escapes becomes a delivered failure, unless a Task was already saved. */
  function Run(j: Journal, limits: Limits): Pass {
    var main := Orchestrate(j, limits);
    if main.end == Rejected(Fault) then
      var recovery := Deliver(j, true, AbandonedFailure);
      Pass(main.calls + recovery.calls, main.decisions, main.turns,
           if recovery.end.Rejected? then Rejected(Fault) else recovery.end)
    else main
  }

  // ---- the body as the source runs it: loops over rounds and chunks ----------------------

  /** What a loop has gathered so far, in front of what is still to come. */
  function Onward(calls: set<Call>, decisions: seq<Decision>, turns: nat, rest: Pass): Pass {
    Pass(calls + rest.calls, decisions + rest.decisions, turns + rest.turns, rest.end)
  }

  /** Each step in turn: the save decides whether there is anything to notify, and a failing sweep does not. */
  method RunDelivery(j: Journal, abandoned: bool, outcome: Outcome) returns (p: Pass)
    ensures p == Deliver(j, abandoned, outcome)
  {
    var complete := Call(Complete(abandoned), Delivering(outcome));
    var calls := {complete};
    if complete.name !in j {
      return Pass(calls, [], 0, Waiting);
    }
    if !(j[complete.name].Returned? && j[complete.name].value.Saved?) {
      return Pass(calls, [], 0, Rejected(Fault));
    }
    var task := j[complete.name].value.task;
    if task.None? {
      return Pass(calls, [], 0, Ended);
    }
    var sweep := Call(Sweep(abandoned), Plain);
    calls := calls + {sweep};
    if sweep.name !in j {
      return Pass(calls, [], 0, Waiting);
    }
    var notify := Call(Notify(abandoned), Posting(task.value));
    calls := calls + {notify};
    assert calls == {complete} + {sweep, notify};
    if notify.name !in j {
      return Pass(calls, [], 0, Waiting);
    }
    return Pass(calls, [], 0, if j[notify.name].Threw? then Rejected(AlreadyTerminal) else Ended);
  }

  /** The recovery around the orchestration: one more delivery, unless a terminal Task was saved. */
  method RunHandleTask(j: Journal, limits: Limits) returns (p: Pass)
    ensures p == Run(j, limits)
  {
    hide Orchestrate, Deliver;
    var main := RunOrchestration(j, limits);
    if main.end != Rejected(Fault) {
      return main;
    }
    var recovery := RunDelivery(j, true, AbandonedFailure);
    var end := if recovery.end.Rejected? then main.end else recovery.end;
    return Pass(main.calls + recovery.calls, main.decisions, main.turns, end);
  }

  /** Every branch runs, whatever becomes of the others. */
  method RunBranches(j: Journal, ids: set<nat>) returns (p: Pass)
    ensures p == Branches(j, ids)
  {
    hide Branch;
    var rest, calls, rejected, waiting := ids, {}, false, false;
    while rest != {}
      invariant rest <= ids
      invariant forall c :: c in calls <==> exists id :: id in ids - rest && c in Branch(j, id, 0).calls
      invariant rejected <==> exists id :: id in ids - rest && Branch(j, id, 0).end.Rejected?
      invariant waiting <==> exists id :: id in ids - rest && Branch(j, id, 0).end.Waiting?
      decreases rest
    {
      var id :| id in rest;
      var b := RunBranch(j, id);
      assert ids - (rest - {id}) == (ids - rest) + {id};
      rest := rest - {id};
      calls := calls + b.calls;
      rejected := rejected || b.end.Rejected?;
      waiting := waiting || b.end.Waiting?;
    }
    assert ids - rest == ids;
    p := Pass(calls, [], 0, if rejected then Rejected(Fault) else if waiting then Waiting else Ended);
    assert p.calls == Branches(j, ids).calls;
  }

  method RunBranch(j: Journal, id: nat) returns (p: Pass)
    ensures p == Branch(j, id, 0)
  {
    var calls := {};
    for chunk := 0 to MAX_CHUNKS_PER_BRANCH
      invariant Branch(j, id, 0) == After(calls, Branch(j, id, chunk))
    {
      var execute := Call(Execute(id, chunk), Plain);
      calls := calls + {execute};
      if execute.name !in j {
        return Pass(calls, [], 0, Waiting);
      }
      if j[execute.name].Threw? {
        return After(calls, FailAfterRetries(j, id));
      }
      if j[execute.name] == Returned(Flag(true)) {
        return Pass(calls, [], 0, Ended);
      }
    }
    p := After(calls, FailAfterChunks(j, id));
  }

  method RunOrchestration(j: Journal, limits: Limits) returns (p: Pass)
    ensures p == Orchestrate(j, limits)
  {
    hide OneRound, Executed, Branches, Deliver;
    var working, started := Call(Working, Plain), Call(Started, Plain);
    if working.name !in j {
      return Pass({working}, [], 0, Waiting);
    }
    if j[working.name] == Returned(Flag(false)) {
      return Pass({working}, [], 0, Ended);
    }
    if j[working.name] != Returned(Flag(true)) {
      return Pass({working}, [], 0, Rejected(Fault));
    }
    if started.name !in j {
      return Pass({working, started}, [], 0, Waiting);
    }
    if !(j[started.name].Returned? && j[started.name].value.Instant?) {
      return Pass({working, started}, [], 0, Rejected(Fault));
    }
    var startedAt := j[started.name].value.ms;
    var calls, decisions := {working, started}, [];
    var turnsUsed: nat := 0;
    for round := 0 to limits.maxTurns + 1
      invariant Orchestrate(j, limits) == Onward(calls, decisions, turnsUsed, Rounds(j, limits, startedAt, round, turnsUsed))
    {
      var r := RunRound(j, limits, startedAt, round, turnsUsed);
      calls, decisions := calls + r.calls, decisions + r.decisions;
      if r.end != Ended || r.over {
        return Pass(calls, decisions, turnsUsed + r.turns, r.end);
      }
      turnsUsed := turnsUsed + r.turns;
    }
    var tail := RunDelivery(j, false, BudgetFailure);
    p := Onward(calls, decisions, turnsUsed, tail);
  }

  /** One iteration of the loop: `over` says that it returned rather than falling through. */
  datatype Iteration = Iteration(calls: set<Call>, decisions: seq<Decision>, turns: nat, end: End, over: bool)

  lemma OnwardTwice(c: set<Call>, d: seq<Decision>, t: nat, e: set<Call>, f: seq<Decision>, u: nat, rest: Pass)
    ensures Onward(c, d, t, Onward(e, f, u, rest)) == Onward(c + e, d + f, t + u, rest)
  {
    assert d + (f + rest.decisions) == d + f + rest.decisions;
    assert c + (e + rest.calls) == c + e + rest.calls;
  }

  method RunRound(j: Journal, limits: Limits, startedAt: int, round: nat, turnsUsed: nat) returns (r: Iteration)
    requires round <= limits.maxTurns
    ensures Rounds(j, limits, startedAt, round, turnsUsed) ==
      if r.end == Ended && !r.over
      then Onward(r.calls, r.decisions, r.turns, Rounds(j, limits, startedAt, round + 1, turnsUsed + r.turns))
      else Pass(r.calls, r.decisions, r.turns, r.end)
  {
    hide OneRound, Executed, Branches, Deliver;
    var deadline := Call(Deadline(round), Since(startedAt));
    if deadline.name !in j {
      return Iteration({deadline}, [], 0, Waiting, true);
    }
    if !(j[deadline.name].Returned? && j[deadline.name].value.Flag?) {
      return Iteration({deadline}, [], 0, Rejected(Fault), true);
    }
    var mode := if turnsUsed >= limits.maxTurns || j[deadline.name].value.b then Final else Open;
    var turned := RunTurnStep(j, limits, startedAt, round, turnsUsed, mode);
    r := turned.(calls := {deadline} + turned.calls);
    DeadlineFirst(j, limits, startedAt, round, turnsUsed);
    CallBeforeIteration(deadline, turned, OneRound(j, limits, startedAt, round, turnsUsed, mode),
                        Rounds(j, limits, startedAt, round + 1, turnsUsed + turned.turns));
  }

  lemma CallBeforeIteration(c: Call, it: Iteration, p: Pass, next: Pass)
    requires p == if it.end == Ended && !it.over then Onward(it.calls, it.decisions, it.turns, next)
                  else Pass(it.calls, it.decisions, it.turns, it.end)
    ensures After({c}, p) ==
      if it.end == Ended && !it.over then Onward({c} + it.calls, it.decisions, it.turns, next)
      else Pass({c} + it.calls, it.decisions, it.turns, it.end)
  {
    assert {c} + (it.calls + next.calls) == {c} + it.calls + next.calls;
  }

  lemma DeadlineFirst(j: Journal, limits: Limits, startedAt: int, round: nat, used: nat)
    requires round <= limits.maxTurns
    requires Deadline(round) in j && j[Deadline(round)].Returned? && j[Deadline(round)].value.Flag?
    ensures Rounds(j, limits, startedAt, round, used)
      == After({Call(Deadline(round), Since(startedAt))},
               OneRound(j, limits, startedAt, round, used, ModeOf(limits, used, j[Deadline(round)].value.b)))
  {}

  method RunTurnStep(j: Journal, limits: Limits, startedAt: int, round: nat, turnsUsed: nat, mode: Mode) returns (r: Iteration)
    requires round <= limits.maxTurns
    ensures OneRound(j, limits, startedAt, round, turnsUsed, mode) ==
      if r.end == Ended && !r.over
      then Onward(r.calls, r.decisions, r.turns, Rounds(j, limits, startedAt, round + 1, turnsUsed + r.turns))
      else Pass(r.calls, r.decisions, r.turns, r.end)
  {
    var turn := Call(Turn(round), Turning(mode, limits.maxTurns - turnsUsed));
    var decisions := [Decision(round, turnsUsed, mode)];
    if turn.name !in j {
      return Iteration({turn}, decisions, 0, Waiting, true);
    }
    if !(j[turn.name].Returned? && j[turn.name].value.Turned?) {
      return Iteration({turn}, decisions, 0, Rejected(Fault), true);
    }
    var verdict, turns := j[turn.name].value.verdict, j[turn.name].value.turns;
    assert decisions + [] == decisions;
    if verdict.Canceled? {
      return Iteration({turn}, decisions, turns, Ended, true);
    }
    if verdict.Failed? {
      var d := RunDelivery(j, false, RoundFailure(verdict.kind, verdict.error));
      return Iteration({turn} + d.calls, decisions, turns, d.end, true);
    }
    if verdict.Replied? {
      var d := RunDelivery(j, false, Answer(verdict.reply));
      return Iteration({turn} + d.calls, decisions, turns, d.end, true);
    }
    var executed := RunSubtasks(j, limits, startedAt, round, turnsUsed + turns);
    r := Iteration({turn} + executed.calls, decisions, turns, executed.end, executed.over);
    OnwardTwice({turn}, decisions, turns, executed.calls, [], 0, Rounds(j, limits, startedAt, round + 1, turnsUsed + turns));
  }

  method RunSubtasks(j: Journal, limits: Limits, startedAt: int, round: nat, turnsUsed: nat) returns (r: Iteration)
    requires round <= limits.maxTurns
    ensures r.decisions == [] && r.turns == 0
    ensures Executed(j, limits, startedAt, round, turnsUsed) ==
      if r.end == Ended && !r.over
      then Onward(r.calls, [], 0, Rounds(j, limits, startedAt, round + 1, turnsUsed))
      else Pass(r.calls, [], 0, r.end)
  {
    var scan := Call(Scan(round), Plain);
    if scan.name !in j {
      return Iteration({scan}, [], 0, Waiting, true);
    }
    if !(j[scan.name].Returned? && j[scan.name].value.Scanned?) {
      return Iteration({scan}, [], 0, Rejected(Fault), true);
    }
    if j[scan.name].value.canceled {
      var cancel := Call(CancelRound(round), Plain);
      var end := if cancel.name !in j then Waiting else if j[cancel.name].Threw? then Rejected(Fault) else Ended;
      return Iteration({scan, cancel}, [], 0, end, true);
    }
    var branches := RunBranches(j, j[scan.name].value.ids);
    r := Iteration({scan} + branches.calls, [], 0, branches.end, false);
  }
}
