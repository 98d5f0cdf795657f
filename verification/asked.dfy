/**
 * Exactly what the Workflow body asks for, and how it ends, told from its journal
 * without running it: a second, flat reading of the same program.
 */
module Asked {
  import opened Wrappers
  import opened Budget
  import opened Workflow
  import Replay

  // ---- one branch -------------------------------------------------------------------------------

  /** The chunks before this one were recorded, and none of them finished the branch. */
  ghost predicate Behind(j: Journal, id: nat, chunk: nat) {
    forall c :: 0 <= c < chunk ==> Replay.NotDone(j, id, c)
  }

  ghost predicate Threw(j: Journal, n: StepName) {
    n in j && j[n].Threw?
  }

  /** A chunk's retries ran out behind chunks that were not done, or all forty were not done. */
  ghost predicate GivenUp(j: Journal, id: nat) {
    || Behind(j, id, 40)
    || exists c :: 0 <= c < 40 && Behind(j, id, c) && Threw(j, Execute(id, c))
  }

  ghost predicate AskedByBranch(j: Journal, id: nat, call: Call) {
    match call.name
    case Execute(i, chunk) => i == id && call.input == Plain && chunk < 40 && Behind(j, id, chunk)
    case FailBranch(i) =>
      && i == id
      && (|| (call.input == Because(TooManyChunks) && Behind(j, id, 40))
          || (call.input == Because(RetriesExhausted) && Behind(j, id, 40) && Threw(j, FailBranch(id)))
          || (call.input == Because(RetriesExhausted) && exists c :: 0 <= c < 40 && Behind(j, id, c) && Threw(j, Execute(id, c))))
    case _ => false
  }

  ghost predicate BranchOver(j: Journal, id: nat) {
    || (exists c :: 0 <= c < 40 && Behind(j, id, c) && Execute(id, c) in j && j[Execute(id, c)] == Returned(Flag(true)))
    || (GivenUp(j, id) && FailBranch(id) in j && j[FailBranch(id)].Returned?)
  }

  ghost predicate BranchLost(j: Journal, id: nat) {
    GivenUp(j, id) && Threw(j, FailBranch(id))
  }

  lemma BehindGrows(j: Journal, id: nat, chunk: nat)
    requires Behind(j, id, chunk)
    ensures Behind(j, id, chunk + 1) <==> Replay.NotDone(j, id, chunk)
    ensures !Replay.NotDone(j, id, chunk) ==> forall c :: c > chunk ==> !Behind(j, id, c)
    ensures forall c :: 0 <= c < chunk ==> !Threw(j, Execute(id, c)) && Replay.NotDone(j, id, c)
  {
    forall c | c > chunk && Behind(j, id, c)
      ensures Replay.NotDone(j, id, chunk)
    {
      assert 0 <= chunk < c;
    }
    forall c | 0 <= c < chunk
      ensures !Threw(j, Execute(id, c)) && Replay.NotDone(j, id, c)
    {
      assert Replay.NotDone(j, id, c);
    }
  }

  lemma {:induction false} BranchAsks(j: Journal, id: nat, chunk: nat, call: Call)
    requires chunk <= MAX_CHUNKS_PER_BRANCH && Behind(j, id, chunk)
    ensures call in Branch(j, id, chunk).calls <==>
      AskedByBranch(j, id, call) && (call.name.Execute? ==> call.name.chunk >= chunk)
    decreases MAX_CHUNKS_PER_BRANCH - chunk
  {
    hide Behind;
    BehindGrows(j, id, chunk);
    if chunk < MAX_CHUNKS_PER_BRANCH && Replay.NotDone(j, id, chunk) {
      BranchAsks(j, id, chunk + 1, call);
    }
  }

  lemma {:induction false} BranchEnds(j: Journal, id: nat, chunk: nat)
    requires chunk <= MAX_CHUNKS_PER_BRANCH && Behind(j, id, chunk)
    ensures Branch(j, id, chunk).end == Ended <==> BranchOver(j, id)
    ensures Branch(j, id, chunk).end == Rejected(Fault) <==> BranchLost(j, id)
    ensures Branch(j, id, chunk).end.Rejected? <==> BranchLost(j, id)
    decreases MAX_CHUNKS_PER_BRANCH - chunk
  {
    hide Behind;
    BehindGrows(j, id, chunk);
    if chunk < MAX_CHUNKS_PER_BRANCH && Replay.NotDone(j, id, chunk) {
      BranchEnds(j, id, chunk + 1);
    }
  }

  // ---- one delivery -------------------------------------------------------------------------------

  ghost predicate AskedByDelivery(j: Journal, a: bool, outcome: Outcome, call: Call) {
    || call == Call(Complete(a), Delivering(outcome))
    || (exists task :: Replay.SavedBy(j, a, task)
          && (call == Call(Sweep(a), Plain) || (Sweep(a) in j && call == Call(Notify(a), Posting(task)))))
  }

  ghost predicate Recorded(j: Journal, n: StepName) {
    n in j && j[n].Returned?
  }

  /** The save was refused, or what it saved was swept and told. */
  ghost predicate DeliveryOver(j: Journal, a: bool) {
    || (Complete(a) in j && j[Complete(a)] == Returned(Saved(None)))
    || (exists task :: Replay.SavedBy(j, a, task) && Sweep(a) in j && Recorded(j, Notify(a)))
  }

  ghost predicate DeliveryUntold(j: Journal, a: bool) {
    exists task :: Replay.SavedBy(j, a, task) && Sweep(a) in j && Threw(j, Notify(a))
  }

  ghost predicate DeliveryLost(j: Journal, a: bool) {
    Complete(a) in j && !(j[Complete(a)].Returned? && j[Complete(a)].value.Saved?)
  }

  lemma DeliveryAsks(j: Journal, a: bool, outcome: Outcome, call: Call)
    ensures call in Deliver(j, a, outcome).calls <==> AskedByDelivery(j, a, outcome, call)
    ensures Deliver(j, a, outcome).end == Ended <==> DeliveryOver(j, a)
    ensures Deliver(j, a, outcome).end == Rejected(AlreadyTerminal) <==> DeliveryUntold(j, a)
    ensures Deliver(j, a, outcome).end == Rejected(Fault) <==> DeliveryLost(j, a)
    ensures Deliver(j, a, outcome).end.Rejected? <==> DeliveryUntold(j, a) || DeliveryLost(j, a)
    ensures Deliver(j, a, outcome).turns == 0 && Deliver(j, a, outcome).decisions == []
  {
    if Recorded(j, Complete(a)) && j[Complete(a)].value.Saved? && j[Complete(a)].value.task.Some? {
      assert Replay.SavedBy(j, a, j[Complete(a)].value.task.value);
    }
  }

  // ---- one round's branches ---------------------------------------------------------------------------

  /** Delegated, scanned alive, and every branch of the scan came to its end. */
  ghost predicate SeenThrough(j: Journal, r: nat) {
    && Replay.DelegatedAt(j, r) && Replay.ScannedAt(j, r) && !j[Scan(r)].value.canceled
    && forall id :: id in j[Scan(r)].value.ids ==> BranchOver(j, id)
  }

  ghost predicate AskedByExecution(j: Journal, r: nat, call: Call) {
    || call == Call(Scan(r), Plain)
    || (Replay.ScannedAt(j, r) && j[Scan(r)].value.canceled && call == Call(CancelRound(r), Plain))
    || (Replay.ScannedAt(j, r) && !j[Scan(r)].value.canceled
        && exists id :: id in j[Scan(r)].value.ids && AskedByBranch(j, id, call))
  }

  ghost predicate ExecutionLost(j: Journal, r: nat) {
    || (Scan(r) in j && !Replay.ScannedAt(j, r))
    || (Replay.ScannedAt(j, r) && j[Scan(r)].value.canceled && Threw(j, CancelRound(r)))
    || (Replay.ScannedAt(j, r) && !j[Scan(r)].value.canceled && exists id :: id in j[Scan(r)].value.ids && BranchLost(j, id))
  }

  ghost predicate FoundCanceled(j: Journal, r: nat) {
    Replay.ScannedAt(j, r) && j[Scan(r)].value.canceled && Recorded(j, CancelRound(r))
  }

  lemma BranchesAsk(j: Journal, ids: set<nat>, call: Call)
    ensures call in Branches(j, ids).calls <==> exists id :: id in ids && AskedByBranch(j, id, call)
    ensures Branches(j, ids).end == Ended <==> forall id :: id in ids ==> BranchOver(j, id)
    ensures Branches(j, ids).end == Rejected(Fault) <==> exists id :: id in ids && BranchLost(j, id)
    ensures Branches(j, ids).end != Rejected(AlreadyTerminal) && Branches(j, ids).turns == 0 && Branches(j, ids).decisions == []
  {
    hide Branch, AskedByBranch, BranchOver, BranchLost;
    forall id
      ensures call in Branch(j, id, 0).calls <==> AskedByBranch(j, id, call)
      ensures Branch(j, id, 0).end == Ended <==> BranchOver(j, id)
      ensures Branch(j, id, 0).end.Rejected? <==> BranchLost(j, id)
    {
      assert Behind(j, id, 0);
      BranchAsks(j, id, 0, call);
      BranchEnds(j, id, 0);
    }
    if call in Branches(j, ids).calls {
      var id :| id in ids && call in Branch(j, id, 0).calls;
    }
  }

  lemma PassedIsSeenThrough(j: Journal, r: nat)
    ensures Replay.Passed(j, r) <==> SeenThrough(j, r)
  {
    hide Branches, BranchOver;
    if Replay.ScannedAt(j, r) {
      BranchesAsk(j, j[Scan(r)].value.ids, Call(Working, Plain));
    }
  }

  lemma ExecutionAsks(j: Journal, limits: Limits, ms: int, r: nat, used: nat, call: Call)
    requires r <= limits.maxTurns && Replay.DelegatedAt(j, r)
    ensures
      var p, rest := Executed(j, limits, ms, r, used), Rounds(j, limits, ms, r + 1, used);
      && (call in p.calls <==> AskedByExecution(j, r, call) || (SeenThrough(j, r) && call in rest.calls))
      && (p.end == Ended <==> FoundCanceled(j, r) || (SeenThrough(j, r) && rest.end == Ended))
      && (p.end == Rejected(Fault) <==> ExecutionLost(j, r) || (SeenThrough(j, r) && rest.end == Rejected(Fault)))
      && (p.end == Rejected(AlreadyTerminal) <==> SeenThrough(j, r) && rest.end == Rejected(AlreadyTerminal))
      && p.turns == (if SeenThrough(j, r) then rest.turns else 0)
      && p.decisions == (if SeenThrough(j, r) then rest.decisions else [])
  {
    hide Branches, Rounds, AskedByBranch, BranchOver, BranchLost;
    if Replay.ScannedAt(j, r) && !j[Scan(r)].value.canceled {
      BranchesAsk(j, j[Scan(r)].value.ids, call);
    }
  }

  // ---- one round ------------------------------------------------------------------------------------------

  ghost predicate TurnedAt(j: Journal, r: nat) {
    Turn(r) in j && j[Turn(r)].Returned? && j[Turn(r)].value.Turned?
  }

  function ModeAt(limits: Limits, used: nat, overdue: bool): Mode {
    if overdue || limits.maxTurns <= used then Final else Open
  }

  /** The turn a round in time, or out of it, asks for. */
  ghost predicate IsTurn(j: Journal, limits: Limits, r: nat, used: nat, call: Call)
    requires Replay.Timed(j, r)
  {
    call == Call(Turn(r), Turning(ModeAt(limits, used, j[Deadline(r)].value.b), limits.maxTurns - used))
  }

  /** What a round's recorded verdict asks for. */
  ghost predicate AskedByVerdict(j: Journal, r: nat, call: Call)
    requires TurnedAt(j, r)
  {
    match j[Turn(r)].value.verdict
    case Canceled => false
    case Failed(kind, error) => AskedByDelivery(j, false, RoundFailure(kind, error), call)
    case Replied(reply) => AskedByDelivery(j, false, Answer(reply), call)
    case Delegated => AskedByExecution(j, r, call)
  }

  ghost predicate AskedInRound(j: Journal, limits: Limits, ms: int, r: nat, used: nat, call: Call) {
    || call == Call(Deadline(r), Since(ms))
    || (Replay.Timed(j, r) && IsTurn(j, limits, r, used, call))
    || (Replay.Timed(j, r) && TurnedAt(j, r) && AskedByVerdict(j, r, call))
  }

  predicate Delivers(v: Verdict) {
    v.Replied? || v.Failed?
  }

  ghost predicate RoundOver(j: Journal, r: nat) {
    && Replay.Timed(j, r) && TurnedAt(j, r)
    && match j[Turn(r)].value.verdict
       case Canceled => true
       case Delegated => FoundCanceled(j, r)
       case _ => DeliveryOver(j, false)
  }

  ghost predicate RoundLost(j: Journal, r: nat) {
    || (Deadline(r) in j && !Replay.Timed(j, r))
    || (Replay.Timed(j, r) && Turn(r) in j && !TurnedAt(j, r))
    || (Replay.Timed(j, r) && TurnedAt(j, r) && Delivers(j[Turn(r)].value.verdict) && DeliveryLost(j, false))
    || (Replay.Timed(j, r) && Replay.DelegatedAt(j, r) && ExecutionLost(j, r))
  }

  ghost predicate RoundUntold(j: Journal, r: nat) {
    Replay.Timed(j, r) && TurnedAt(j, r) && Delivers(j[Turn(r)].value.verdict) && DeliveryUntold(j, false)
  }

  lemma VerdictAsks(j: Journal, limits: Limits, ms: int, r: nat, used: nat, mode: Mode, call: Call)
    requires r <= limits.maxTurns && TurnedAt(j, r)
    ensures
      var turns := j[Turn(r)].value.turns;
      var p, rest := OneRound(j, limits, ms, r, used, mode), Rounds(j, limits, ms, r + 1, used + turns);
      && (call in p.calls <==>
            || call == Call(Turn(r), Turning(mode, limits.maxTurns - used)) || AskedByVerdict(j, r, call)
            || (SeenThrough(j, r) && call in rest.calls))
      && p.turns == turns + (if SeenThrough(j, r) then rest.turns else 0)
      && p.decisions == [Decision(r, used, mode)] + (if SeenThrough(j, r) then rest.decisions else [])
  {
    hide Executed, Deliver, Rounds, AskedByDelivery, AskedByExecution, SeenThrough;
    match j[Turn(r)].value.verdict
    case Canceled => NotDelegatedNotThrough(j, r);
    case Failed(kind, error) =>
      NotDelegatedNotThrough(j, r);
      DeliveryAsks(j, false, RoundFailure(kind, error), call);
    case Replied(reply) =>
      NotDelegatedNotThrough(j, r);
      DeliveryAsks(j, false, Answer(reply), call);
    case Delegated => ExecutionAsks(j, limits, ms, r, used + j[Turn(r)].value.turns, call);
  }

  lemma NotDelegatedNotThrough(j: Journal, r: nat)
    requires !Replay.DelegatedAt(j, r)
    ensures !SeenThrough(j, r)
  {}

  lemma VerdictEnds(j: Journal, limits: Limits, ms: int, r: nat, used: nat, mode: Mode)
    requires r <= limits.maxTurns && Replay.Timed(j, r) && TurnedAt(j, r)
    ensures
      var p, rest := OneRound(j, limits, ms, r, used, mode), Rounds(j, limits, ms, r + 1, used + j[Turn(r)].value.turns);
      && (p.end == Ended <==> RoundOver(j, r) || (SeenThrough(j, r) && rest.end == Ended))
      && (p.end == Rejected(Fault) <==> RoundLost(j, r) || (SeenThrough(j, r) && rest.end == Rejected(Fault)))
      && (p.end == Rejected(AlreadyTerminal) <==> RoundUntold(j, r) || (SeenThrough(j, r) && rest.end == Rejected(AlreadyTerminal)))
  {
    hide Executed, Deliver, Rounds, SeenThrough, ExecutionLost, FoundCanceled, DeliveryOver, DeliveryLost, DeliveryUntold;
    var any := Call(Working, Plain);
    match j[Turn(r)].value.verdict
    case Canceled => NotDelegatedNotThrough(j, r);
    case Failed(kind, error) =>
      NotDelegatedNotThrough(j, r);
      DeliveryAsks(j, false, RoundFailure(kind, error), any);
    case Replied(reply) =>
      NotDelegatedNotThrough(j, r);
      DeliveryAsks(j, false, Answer(reply), any);
    case Delegated => ExecutionAsks(j, limits, ms, r, used + j[Turn(r)].value.turns, any);
  }

  lemma RoundAsks(j: Journal, limits: Limits, ms: int, r: nat, used: nat, call: Call)
    requires r <= limits.maxTurns
    ensures
      var p := Rounds(j, limits, ms, r, used);
      var on := Replay.Timed(j, r) && SeenThrough(j, r);
      && (call in p.calls <==>
            AskedInRound(j, limits, ms, r, used, call)
            || (on && call in Rounds(j, limits, ms, r + 1, used + j[Turn(r)].value.turns).calls))
      && p.turns == (if Replay.Timed(j, r) && TurnedAt(j, r) then j[Turn(r)].value.turns else 0)
                    + (if on then Rounds(j, limits, ms, r + 1, used + j[Turn(r)].value.turns).turns else 0)
      && p.decisions ==
           (if Replay.Timed(j, r) then [Decision(r, used, ModeAt(limits, used, j[Deadline(r)].value.b))] else [])
           + (if on then Rounds(j, limits, ms, r + 1, used + j[Turn(r)].value.turns).decisions else [])
  {
    hide SeenThrough, AskedByVerdict, OneRound;
    if Replay.Timed(j, r) {
      DeadlineFirst(j, limits, ms, r, used);
      hide Rounds;
      var mode := ModeOf(limits, used, j[Deadline(r)].value.b);
      if TurnedAt(j, r) {
        VerdictAsks(j, limits, ms, r, used, mode, call);
      } else {
        TurnAsks(j, limits, ms, r, used, mode);
        NotDelegatedNotThrough(j, r);
      }
    } else {
      UntimedAsks(j, limits, ms, r, used);
      hide Rounds;
    }
  }

  lemma TurnAsks(j: Journal, limits: Limits, ms: int, r: nat, used: nat, mode: Mode)
    requires r <= limits.maxTurns && !TurnedAt(j, r)
    ensures
      var p := OneRound(j, limits, ms, r, used, mode);
      && p.calls == {Call(Turn(r), Turning(mode, limits.maxTurns - used))}
      && p.turns == 0 && p.decisions == [Decision(r, used, mode)]
  {}

  lemma UntimedAsks(j: Journal, limits: Limits, ms: int, r: nat, used: nat)
    requires r <= limits.maxTurns && !Replay.Timed(j, r)
    ensures
      var p := Rounds(j, limits, ms, r, used);
      p.calls == {Call(Deadline(r), Since(ms))} && p.turns == 0 && p.decisions == []
  {}

  lemma RoundEnds(j: Journal, limits: Limits, ms: int, r: nat, used: nat)
    requires r <= limits.maxTurns
    ensures
      var p := Rounds(j, limits, ms, r, used);
      var on := Replay.Timed(j, r) && SeenThrough(j, r);
      && (p.end == Ended <==> RoundOver(j, r) || (on && Rounds(j, limits, ms, r + 1, used + j[Turn(r)].value.turns).end == Ended))
      && (p.end == Rejected(Fault) <==>
            RoundLost(j, r) || (on && Rounds(j, limits, ms, r + 1, used + j[Turn(r)].value.turns).end == Rejected(Fault)))
      && (p.end == Rejected(AlreadyTerminal) <==>
            RoundUntold(j, r) || (on && Rounds(j, limits, ms, r + 1, used + j[Turn(r)].value.turns).end == Rejected(AlreadyTerminal)))
  {
    hide SeenThrough, ExecutionLost, FoundCanceled, DeliveryOver, DeliveryLost, DeliveryUntold;
    if Replay.Timed(j, r) {
      DeadlineFirst(j, limits, ms, r, used);
      var mode := ModeOf(limits, used, j[Deadline(r)].value.b);
      if TurnedAt(j, r) {
        VerdictEnds(j, limits, ms, r, used, mode);
      } else {
        NotDelegatedNotThrough(j, r);
      }
      hide Rounds;
    }
  }

  // ---- the round loop -----------------------------------------------------------------------------------------

  /** Every round from one to before another was read the deadline of, and seen through. */
  ghost predicate Through(j: Journal, from: nat, to: nat) {
    forall r :: from <= r < to ==> Replay.Timed(j, r) && SeenThrough(j, r)
  }

  ghost predicate AskedByLoop(j: Journal, limits: Limits, ms: int, from: nat, call: Call) {
    || (exists r :: from <= r <= limits.maxTurns && Through(j, from, r)
          && AskedInRound(j, limits, ms, r, Replay.UsedBefore(j, r), call))
    || (Through(j, from, limits.maxTurns + 1) && AskedByDelivery(j, false, BudgetFailure, call))
  }

  ghost predicate LoopOver(j: Journal, limits: Limits, from: nat) {
    || (exists r :: from <= r <= limits.maxTurns && Through(j, from, r) && RoundOver(j, r))
    || (Through(j, from, limits.maxTurns + 1) && DeliveryOver(j, false))
  }

  ghost predicate LoopLost(j: Journal, limits: Limits, from: nat) {
    || (exists r :: from <= r <= limits.maxTurns && Through(j, from, r) && RoundLost(j, r))
    || (Through(j, from, limits.maxTurns + 1) && DeliveryLost(j, false))
  }

  ghost predicate LoopUntold(j: Journal, limits: Limits, from: nat) {
    || (exists r :: from <= r <= limits.maxTurns && Through(j, from, r) && RoundUntold(j, r))
    || (Through(j, from, limits.maxTurns + 1) && DeliveryUntold(j, false))
  }

  lemma ThroughOne(j: Journal, from: nat, to: nat)
    ensures from < to ==> (Through(j, from, to) <==> Replay.Timed(j, from) && SeenThrough(j, from) && Through(j, from + 1, to))
    ensures to <= from ==> Through(j, from, to)
  {
    hide SeenThrough;
  }

  /** Some round from one on satisfies a property behind rounds that were seen through: the first does, or a later one. */
  ghost predicate SomeRound(j: Journal, limits: Limits, from: nat, p: nat -> bool) {
    exists r :: from <= r <= limits.maxTurns && Through(j, from, r) && p(r)
  }

  lemma SomeRoundSplits(j: Journal, limits: Limits, from: nat, p: nat -> bool)
    requires from <= limits.maxTurns
    ensures SomeRound(j, limits, from, p) <==>
      p(from) || (Replay.Timed(j, from) && SeenThrough(j, from) && SomeRound(j, limits, from + 1, p))
  {
    hide Through, SeenThrough;
    ThroughOne(j, from, from);
    if SomeRound(j, limits, from, p) {
      var r :| from <= r <= limits.maxTurns && Through(j, from, r) && p(r);
      ThroughOne(j, from, r);
    }
    if p(from) {
      assert Through(j, from, from) && p(from);
    }
    if Replay.Timed(j, from) && SeenThrough(j, from) && SomeRound(j, limits, from + 1, p) {
      var r :| from + 1 <= r <= limits.maxTurns && Through(j, from + 1, r) && p(r);
      ThroughOne(j, from, r);
      assert Through(j, from, r) && p(r);
    }
  }

  lemma UsedByThrough(j: Journal, r: nat)
    requires SeenThrough(j, r)
    ensures Replay.UsedBefore(j, r + 1) == Replay.UsedBefore(j, r) + j[Turn(r)].value.turns
  {
    hide BranchOver;
  }

  lemma {:induction false} LoopAsks(j: Journal, limits: Limits, ms: int, round: nat, call: Call)
    requires round <= limits.maxTurns + 1
    ensures call in Rounds(j, limits, ms, round, Replay.UsedBefore(j, round)).calls <==> AskedByLoop(j, limits, ms, round, call)
    decreases limits.maxTurns + 1 - round
  {
    hide SeenThrough, Through, AskedInRound, AskedByDelivery;
    if round > limits.maxTurns {
      ThroughOne(j, round, limits.maxTurns + 1);
      DeliveryAsks(j, false, BudgetFailure, call);
    } else {
      hide Rounds, Replay.UsedBefore;
      RoundAsks(j, limits, ms, round, Replay.UsedBefore(j, round), call);
      LoopAsks(j, limits, ms, round + 1, call);
      if SeenThrough(j, round) {
        UsedByThrough(j, round);
      }
      LoopSplits(j, limits, ms, round, call);
    }
  }

  lemma LoopSplits(j: Journal, limits: Limits, ms: int, round: nat, call: Call)
    requires round <= limits.maxTurns
    ensures AskedByLoop(j, limits, ms, round, call) <==>
      || AskedInRound(j, limits, ms, round, Replay.UsedBefore(j, round), call)
      || (Replay.Timed(j, round) && SeenThrough(j, round) && AskedByLoop(j, limits, ms, round + 1, call))
  {
    hide SeenThrough, Through, AskedInRound, AskedByDelivery, AskedByLoop, SomeRound, Replay.UsedBefore;
    ThroughOne(j, round, limits.maxTurns + 1);
    SomeRoundSplits(j, limits, round, (r: nat) => AskedInRound(j, limits, ms, r, Replay.UsedBefore(j, r), call));
    AskedIsSome(j, limits, ms, round, call);
    AskedIsSome(j, limits, ms, round + 1, call);
  }

  lemma AskedIsSome(j: Journal, limits: Limits, ms: int, from: nat, call: Call)
    ensures AskedByLoop(j, limits, ms, from, call) <==>
      || SomeRound(j, limits, from, (r: nat) => AskedInRound(j, limits, ms, r, Replay.UsedBefore(j, r), call))
      || (Through(j, from, limits.maxTurns + 1) && AskedByDelivery(j, false, BudgetFailure, call))
  {
    hide Through, AskedInRound, AskedByDelivery;
  }

  lemma {:induction false} LoopEnds(j: Journal, limits: Limits, ms: int, round: nat)
    requires round <= limits.maxTurns + 1
    ensures
      var p := Rounds(j, limits, ms, round, Replay.UsedBefore(j, round));
      && (p.end == Ended <==> LoopOver(j, limits, round))
      && (p.end == Rejected(Fault) <==> LoopLost(j, limits, round))
      && (p.end == Rejected(AlreadyTerminal) <==> LoopUntold(j, limits, round))
    decreases limits.maxTurns + 1 - round
  {
    hide SeenThrough, Through, RoundOver, RoundLost, RoundUntold, DeliveryOver, DeliveryLost, DeliveryUntold;
    ThroughOne(j, round, limits.maxTurns + 1);
    if round > limits.maxTurns {
      DeliveryAsks(j, false, BudgetFailure, Call(Working, Plain));
    } else {
      hide Rounds, Replay.UsedBefore;
      RoundEnds(j, limits, ms, round, Replay.UsedBefore(j, round));
      SomeRoundSplits(j, limits, round, (r: nat) => RoundOver(j, r));
      SomeRoundSplits(j, limits, round, (r: nat) => RoundLost(j, r));
      SomeRoundSplits(j, limits, round, (r: nat) => RoundUntold(j, r));
      LoopEnds(j, limits, ms, round + 1);
      if SeenThrough(j, round) {
        UsedByThrough(j, round);
      }
      EndIsSome(j, limits, round);
      EndIsSome(j, limits, round + 1);
    }
  }

  lemma EndIsSome(j: Journal, limits: Limits, from: nat)
    ensures LoopOver(j, limits, from) <==>
      SomeRound(j, limits, from, (r: nat) => RoundOver(j, r)) || (Through(j, from, limits.maxTurns + 1) && DeliveryOver(j, false))
    ensures LoopLost(j, limits, from) <==>
      SomeRound(j, limits, from, (r: nat) => RoundLost(j, r)) || (Through(j, from, limits.maxTurns + 1) && DeliveryLost(j, false))
    ensures LoopUntold(j, limits, from) <==>
      SomeRound(j, limits, from, (r: nat) => RoundUntold(j, r)) || (Through(j, from, limits.maxTurns + 1) && DeliveryUntold(j, false))
  {
    hide Through, RoundOver, RoundLost, RoundUntold, DeliveryOver, DeliveryLost, DeliveryUntold;
  }

  // ---- the whole body ---------------------------------------------------------------------------------------------

  /** The loop was started: the Task was found alive and its clock was read. */
  ghost predicate Underway(j: Journal) {
    && Working in j && j[Working] == Returned(Flag(true))
    && Started in j && j[Started].Returned? && j[Started].value.Instant?
  }

  ghost predicate AskedInOrder(j: Journal, limits: Limits, call: Call) {
    || call == Call(Working, Plain)
    || (Working in j && j[Working] == Returned(Flag(true)) && call == Call(Started, Plain))
    || (Underway(j) && AskedByLoop(j, limits, j[Started].value.ms, 0, call))
  }

  /** A step came back with what it does not return, or a step that nothing catches ran out of retries. */
  ghost predicate Lost(j: Journal, limits: Limits) {
    || (Working in j && !(j[Working].Returned? && j[Working].value.Flag?))
    || (Working in j && j[Working] == Returned(Flag(true)) && Started in j && !Underway(j))
    || (Underway(j) && LoopLost(j, limits, 0))
  }

  ghost predicate OverInOrder(j: Journal, limits: Limits) {
    || (Working in j && j[Working] == Returned(Flag(false)))
    || (Underway(j) && LoopOver(j, limits, 0))
  }

  lemma OrchestrationAsks(j: Journal, limits: Limits, call: Call)
    ensures call in Orchestrate(j, limits).calls <==> AskedInOrder(j, limits, call)
    ensures Orchestrate(j, limits).end == Ended <==> OverInOrder(j, limits)
    ensures Orchestrate(j, limits).end == Rejected(Fault) <==> Lost(j, limits)
    ensures Orchestrate(j, limits).end == Rejected(AlreadyTerminal) <==> Underway(j) && LoopUntold(j, limits, 0)
  {
    hide Rounds, AskedByLoop, LoopLost, LoopOver, LoopUntold;
    if Underway(j) {
      LoopAsks(j, limits, j[Started].value.ms, 0, call);
      LoopEnds(j, limits, j[Started].value.ms, 0);
      assert Replay.UsedBefore(j, 0) == 0;
    }
  }

  /** What the body asks for, in order or, once the order is lost, for its recovery. */
  ghost predicate Asks(j: Journal, limits: Limits, call: Call) {
    AskedInOrder(j, limits, call) || (Lost(j, limits) && AskedByDelivery(j, true, AbandonedFailure, call))
  }

  /**
   * The body asks for a step, with an input, exactly when the journal says that it is
   * the step's turn: which chunk of which branch, which mode and how many turns for a
   * round, which outcome to which delivery, and the recovery exactly when the order
   * was lost.
   */
  lemma AskedExactlyWhen(j: Journal, limits: Limits, call: Call)
    ensures call in Run(j, limits).calls <==> Asks(j, limits, call)
  {
    hide Orchestrate, AskedInOrder, Lost, AskedByDelivery;
    OrchestrationAsks(j, limits, call);
    DeliveryAsks(j, true, AbandonedFailure, call);
    hide Deliver;
  }

  /** It ends, and it fails, exactly when: a delivery that was over is an end, and so is a cancellation that was found. */
  lemma EndsExactlyWhen(j: Journal, limits: Limits)
    ensures Run(j, limits).end == Ended <==> OverInOrder(j, limits) || (Lost(j, limits) && DeliveryOver(j, true))
    ensures Run(j, limits).end == Rejected(AlreadyTerminal) <==> Underway(j) && LoopUntold(j, limits, 0)
    ensures Run(j, limits).end == Rejected(Fault) <==> Lost(j, limits) && (DeliveryLost(j, true) || DeliveryUntold(j, true))
  {
    hide Orchestrate, OverInOrder, Lost, DeliveryOver, DeliveryLost, DeliveryUntold, LoopUntold;
    OrchestrationAsks(j, limits, Call(Working, Plain));
    DeliveryAsks(j, true, AbandonedFailure, Call(Working, Plain));
    hide Deliver;
  }

  // ---- what each kind of step is asked with ------------------------------------------------------------------------

  /** A round's deadline is asked for against the recorded start. */
  lemma DeadlineInput(j: Journal, limits: Limits, call: Call)
    requires call in Run(j, limits).calls && call.name.Deadline?
    ensures Underway(j) && call.input == Since(j[Started].value.ms)
  {
    hide Run;
    AskedExactlyWhen(j, limits, call);
    hide Through, Lost, Replay.UsedBefore, Behind, Threw;
  }

  /** A round's turn is asked for in the mode and with the turns that its deadline and the rounds before it left. */
  lemma TurnInput(j: Journal, limits: Limits, call: Call)
    requires call in Run(j, limits).calls && call.name.Turn?
    ensures
      var r := call.name.round;
      var used := Replay.UsedBefore(j, r);
      && Replay.Timed(j, r) && call.input.Turning? && call.input.remaining == limits.maxTurns - used
      && (call.input.mode.Final? <==> j[Deadline(r)].value.b || used >= limits.maxTurns)
  {
    hide Run;
    AskedExactlyWhen(j, limits, call);
    hide Through, Lost, Replay.UsedBefore, Behind, Threw;
  }

  /** The verdict a delivery delivers: an answer or a failure that a round recorded, or the end of the loop. */
  ghost predicate Outcomes(j: Journal, limits: Limits, outcome: Outcome) {
    match outcome
    case Answer(reply) => exists r :: TurnedAt(j, r) && j[Turn(r)].value.verdict == Replied(reply)
    case RoundFailure(kind, error) => exists r :: TurnedAt(j, r) && j[Turn(r)].value.verdict == Failed(kind, error)
    case BudgetFailure => Through(j, 0, limits.maxTurns + 1)
    case AbandonedFailure => false
  }

  /** The ordinary delivery is asked for with what a round recorded, the recovery's with the failure of a lost order. */
  lemma DeliveryInput(j: Journal, limits: Limits, call: Call)
    requires call in Run(j, limits).calls && call.name.Complete?
    ensures call.input.Delivering?
    ensures if call.name.abandoned then Lost(j, limits) && call.input.outcome == AbandonedFailure else Outcomes(j, limits, call.input.outcome)
  {
    hide Run;
    AskedExactlyWhen(j, limits, call);
    hide Lost, Replay.UsedBefore, Through, Behind, Threw;
  }

  // ---- what the rounds were metered ---------------------------------------------------------------------------------

  /** The loop has come to this round: the rounds before it were seen through, and it has read its deadline. */
  ghost predicate CameTo(j: Journal, limits: Limits, from: nat, last: nat) {
    && from <= last <= limits.maxTurns + 1 && Through(j, from, last)
    && (last <= limits.maxTurns ==> !(Replay.Timed(j, last) && SeenThrough(j, last)))
  }

  function TurnsAt(j: Journal, r: nat): nat {
    if Turn(r) in j && j[Turn(r)].Returned? && j[Turn(r)].value.Turned? then j[Turn(r)].value.turns else 0
  }

  /** The decision that a round whose deadline was read takes. */
  function DecisionAt(j: Journal, limits: Limits, r: nat): Decision
    requires Deadline(r) in j && j[Deadline(r)].Returned? && j[Deadline(r)].value.Flag?
  {
    Decision(r, Replay.UsedBefore(j, r), ModeAt(limits, Replay.UsedBefore(j, r), j[Deadline(r)].value.b))
  }

  ghost predicate DecidedAs(ds: seq<Decision>, j: Journal, limits: Limits, from: nat) {
    forall i :: 0 <= i < |ds| ==> Replay.Timed(j, ds[i].round) && ds[i].round == from + i && ds[i] == DecisionAt(j, limits, ds[i].round)
  }

  lemma {:induction false} LoopMeters(j: Journal, limits: Limits, ms: int, round: nat, last: nat)
    requires round <= limits.maxTurns + 1 && CameTo(j, limits, round, last)
    ensures
      var p := Rounds(j, limits, ms, round, Replay.UsedBefore(j, round));
      var read := last <= limits.maxTurns && Replay.Timed(j, last);
      && Replay.UsedBefore(j, round) + p.turns == Replay.UsedBefore(j, last) + (if read then TurnsAt(j, last) else 0)
      && DecidedAs(p.decisions, j, limits, round)
      && |p.decisions| == last - round + (if read then 1 else 0)
    decreases limits.maxTurns + 1 - round
  {
    hide SeenThrough, Through;
    if round > limits.maxTurns {
      DeliveryAsks(j, false, BudgetFailure, Call(Working, Plain));
    } else {
      hide Rounds, Replay.UsedBefore;
      ThroughOne(j, round, last);
      RoundAsks(j, limits, ms, round, Replay.UsedBefore(j, round), Call(Working, Plain));
      if round < last {
        UsedByThrough(j, round);
        LoopMeters(j, limits, ms, round + 1, last);
        var rest := Rounds(j, limits, ms, round + 1, Replay.UsedBefore(j, round + 1)).decisions;
        OneMoreDecided(rest, j, limits, round);
      }
    }
  }

  lemma OneMoreDecided(rest: seq<Decision>, j: Journal, limits: Limits, from: nat)
    requires Replay.Timed(j, from) && DecidedAs(rest, j, limits, from + 1)
    ensures DecidedAs([DecisionAt(j, limits, from)] + rest, j, limits, from)
  {
    hide Replay.UsedBefore;
    var ds := [DecisionAt(j, limits, from)] + rest;
    forall i | 0 <= i < |ds|
      ensures Replay.Timed(j, ds[i].round) && ds[i].round == from + i && ds[i] == DecisionAt(j, limits, ds[i].round)
    {
      if i > 0 {
        assert ds[i] == rest[i - 1];
      }
    }
  }

  /**
   * A pass decides each round it comes to once, in order, on the turns of the rounds
   * before it, and meters exactly the turns that those and the last one recorded.
   */
  lemma MeteredExactly(j: Journal, limits: Limits, last: nat)
    requires Underway(j) && CameTo(j, limits, 0, last)
    ensures
      var read := last <= limits.maxTurns && Replay.Timed(j, last);
      && Run(j, limits).turns == Replay.UsedBefore(j, last) + (if read then TurnsAt(j, last) else 0)
      && DecidedAs(Run(j, limits).decisions, j, limits, 0)
      && |Run(j, limits).decisions| == last + (if read then 1 else 0)
  {
    hide Rounds, CameTo, DecidedAs;
    LoopMeters(j, limits, j[Started].value.ms, 0, last);
    assert Replay.UsedBefore(j, 0) == 0;
    hide Replay.UsedBefore, Deliver;
  }
}
