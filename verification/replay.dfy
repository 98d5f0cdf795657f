/**
 * What the Workflow body does over again when it is replayed, where each of its
 * calls comes from, what its rounds are metered, and that no two of its steps
 * share a name.
 */
module Replay {
  import opened Wrappers
  import opened Budget
  import opened Workflow
  import Text
  import Tasks

  // ---- replay -------------------------------------------------------------------------------

  /** `k` is a journal that a longer execution left: it keeps every record of `j`. */
  ghost predicate Extends(j: Journal, k: Journal) {
    forall n :: n in j ==> n in k && k[n] == j[n]
  }

  /** Everything the shorter replay did, the longer one does again, and an end is final. */
  ghost predicate Continues(p: Pass, q: Pass) {
    && p.calls <= q.calls
    && p.decisions <= q.decisions
    && (p.end != Waiting ==> q.end == p.end && q.decisions == p.decisions && q.turns == p.turns)
  }

  lemma {:induction false} BranchReplays(j: Journal, k: Journal, id: nat, chunk: nat)
    requires Extends(j, k) && chunk <= MAX_CHUNKS_PER_BRANCH
    ensures Continues(Branch(j, id, chunk), Branch(k, id, chunk))
    decreases MAX_CHUNKS_PER_BRANCH - chunk
  {
    if chunk < MAX_CHUNKS_PER_BRANCH {
      BranchReplays(j, k, id, chunk + 1);
    }
  }

  lemma BranchesReplay(j: Journal, k: Journal, ids: set<nat>)
    requires Extends(j, k)
    ensures Continues(Branches(j, ids), Branches(k, ids))
  {
    forall id | id in ids
      ensures Continues(Branch(j, id, 0), Branch(k, id, 0))
    {
      BranchReplays(j, k, id, 0);
    }
  }

  lemma DeliverReplays(j: Journal, k: Journal, abandoned: bool, outcome: Outcome)
    requires Extends(j, k)
    ensures Continues(Deliver(j, abandoned, outcome), Deliver(k, abandoned, outcome))
  {}

  lemma {:induction false} RoundsReplay(j: Journal, k: Journal, limits: Limits, startedAt: int, round: nat, used: nat)
    requires Extends(j, k) && round <= limits.maxTurns + 1
    ensures Continues(Rounds(j, limits, startedAt, round, used), Rounds(k, limits, startedAt, round, used))
    decreases limits.maxTurns + 1 - round
  {
    if round > limits.maxTurns {
      DeliverReplays(j, k, false, BudgetFailure);
    } else if Deadline(round) in j && j[Deadline(round)].Returned? && j[Deadline(round)].value.Flag? {
      var mode := ModeOf(limits, used, j[Deadline(round)].value.b);
      OneRoundReplays(j, k, limits, startedAt, round, used, mode);
    }
  }

  lemma {:induction false} OneRoundReplays(j: Journal, k: Journal, limits: Limits, startedAt: int, round: nat, used: nat, mode: Mode)
    requires Extends(j, k) && round <= limits.maxTurns
    ensures Continues(OneRound(j, limits, startedAt, round, used, mode), OneRound(k, limits, startedAt, round, used, mode))
    decreases limits.maxTurns + 1 - round, 0
  {
    hide Workflow.Deliver, Workflow.Branch;
    if Turn(round) in j && j[Turn(round)].Returned? && j[Turn(round)].value.Turned? {
      var verdict, turns := j[Turn(round)].value.verdict, j[Turn(round)].value.turns;
      match verdict
      case Canceled =>
      case Failed(kind, error) => DeliverReplays(j, k, false, RoundFailure(kind, error));
      case Replied(reply) => DeliverReplays(j, k, false, Answer(reply));
      case Delegated =>
        if Scan(round) in j && j[Scan(round)].Returned? && j[Scan(round)].value.Scanned? && !j[Scan(round)].value.canceled {
          BranchesReplay(j, k, j[Scan(round)].value.ids);
          RoundsReplay(j, k, limits, startedAt, round + 1, used + turns);
        }
    }
  }

  lemma OrchestrationReplays(j: Journal, k: Journal, limits: Limits)
    requires Extends(j, k)
    ensures Continues(Orchestrate(j, limits), Orchestrate(k, limits))
  {
    if Started in j && j[Started].Returned? && j[Started].value.Instant? {
      RoundsReplay(j, k, limits, j[Started].value.ms, 0, 0);
    }
  }

  /**
   * Restarted from any prefix of its journal the body takes the same decisions in
   * the same order and makes the same calls until the first unrecorded one. An end
   * it reached stays reached.
   */
  lemma ReplayIsDeterministic(j: Journal, k: Journal, limits: Limits)
    requires Extends(j, k)
    ensures Run(j, limits).calls <= Run(k, limits).calls
    ensures Run(j, limits).decisions <= Run(k, limits).decisions
    ensures Run(j, limits).end != Waiting ==> Run(k, limits).end == Run(j, limits).end
  {
    OrchestrationReplays(j, k, limits);
    DeliverReplays(j, k, true, AbandonedFailure);
  }

  // ---- where each call of the round loop comes from --------------------------------------------

  ghost predicate DelegatedAt(j: Journal, r: nat) {
    Turn(r) in j && j[Turn(r)].Returned? && j[Turn(r)].value.Turned? && j[Turn(r)].value.verdict.Delegated?
  }

  ghost predicate ScannedAt(j: Journal, r: nat) {
    Scan(r) in j && j[Scan(r)].Returned? && j[Scan(r)].value.Scanned?
  }

  /** Round `r` delegated, found the Task alive, and every one of its branches came to its end. */
  ghost predicate Passed(j: Journal, r: nat) {
    && DelegatedAt(j, r)
    && ScannedAt(j, r)
    && !j[Scan(r)].value.canceled
    && Branches(j, j[Scan(r)].value.ids).end == Ended
  }

  ghost predicate Reached(j: Journal, from: nat, r: nat) {
    from <= r && forall s :: from <= s < r ==> Passed(j, s)
  }

  ghost predicate BranchOf(j: Journal, r: nat, id: nat) {
    DelegatedAt(j, r) && ScannedAt(j, r) && !j[Scan(r)].value.canceled && id in j[Scan(r)].value.ids
  }

  /** What the journal already says when the round loop, from round `from` on, makes a call. */
  ghost predicate Placed(j: Journal, limits: Limits, from: nat, c: Call) {
    match c.name
    case Working => false
    case Started => false
    case Deadline(r) => Reached(j, from, r) && c.input.Since?
    case Turn(r) => Reached(j, from, r) && r <= limits.maxTurns && Deadline(r) in j && c.input.Turning?
    case Scan(r) => Reached(j, from, r) && DelegatedAt(j, r)
    case CancelRound(r) => Reached(j, from, r) && DelegatedAt(j, r) && ScannedAt(j, r) && j[Scan(r)].value.canceled
    case Execute(id, _) => c.input.Plain? && exists r :: from <= r && BranchOf(j, r, id)
    case FailBranch(id) => c in Branch(j, id, 0).calls && exists r :: from <= r && BranchOf(j, r, id)
    case Complete(abandoned) => !abandoned && c.input.Delivering? && (c.input.outcome.Answer? ==> AnsweredWith(j, c.input.outcome.reply))
    case Sweep(abandoned) => !abandoned
    case Notify(abandoned) => !abandoned && c.input.Posting? && SavedBy(j, false, c.input.task)
  }

  /** Some round's turn recorded this answer. */
  ghost predicate AnsweredWith(j: Journal, reply: string) {
    exists r :: Turn(r) in j && j[Turn(r)].Returned? && j[Turn(r)].value.Turned? && j[Turn(r)].value.verdict == Replied(reply)
  }

  /** The delivery's `complete` step recorded that it saved this Task. */
  ghost predicate SavedBy(j: Journal, abandoned: bool, task: Tasks.Task) {
    Complete(abandoned) in j && j[Complete(abandoned)] == Returned(Saved(Some(task)))
  }

  lemma {:induction false} BranchNames(j: Journal, id: nat, chunk: nat)
    requires chunk <= MAX_CHUNKS_PER_BRANCH
    ensures forall c :: c in Branch(j, id, chunk).calls ==>
      c.name == FailBranch(id) || (c.name.Execute? && c.name.id == id && c.input.Plain?)
    decreases MAX_CHUNKS_PER_BRANCH - chunk
  {
    if chunk < MAX_CHUNKS_PER_BRANCH {
      BranchNames(j, id, chunk + 1);
    }
  }

  lemma BranchesNames(j: Journal, ids: set<nat>)
    ensures forall c :: c in Branches(j, ids).calls ==>
      || (c.name.FailBranch? && c.name.id in ids && c in Branch(j, c.name.id, 0).calls)
      || (c.name.Execute? && c.name.id in ids && c.input.Plain?)
  {
    hide Branch;
    forall c | c in Branches(j, ids).calls
      ensures
        || (c.name.FailBranch? && c.name.id in ids && c in Branch(j, c.name.id, 0).calls)
        || (c.name.Execute? && c.name.id in ids && c.input.Plain?)
    {
      var id :| id in ids && c in Branch(j, id, 0).calls;
      BranchNames(j, id, 0);
    }
  }

  lemma {:induction false} RoundsPlaced(j: Journal, limits: Limits, startedAt: int, round: nat, used: nat)
    requires round <= limits.maxTurns + 1
    ensures forall c :: c in Rounds(j, limits, startedAt, round, used).calls ==> Placed(j, limits, round, c)
    decreases limits.maxTurns + 1 - round
  {
    if round <= limits.maxTurns && Deadline(round) in j && j[Deadline(round)].Returned? && j[Deadline(round)].value.Flag? {
      var mode := ModeOf(limits, used, j[Deadline(round)].value.b);
      var p := OneRound(j, limits, startedAt, round, used, mode);
      forall c | c in p.calls
        ensures Placed(j, limits, round, c)
      {
        if DelegatedAt(j, round) {
          ExecutedPlaced(j, limits, startedAt, round, used + j[Turn(round)].value.turns);
        }
      }
    }
  }

  lemma {:induction false} ExecutedPlaced(j: Journal, limits: Limits, startedAt: int, round: nat, used: nat)
    requires round <= limits.maxTurns && DelegatedAt(j, round)
    ensures forall c :: c in Executed(j, limits, startedAt, round, used).calls ==> Placed(j, limits, round, c)
    decreases limits.maxTurns + 1 - round, 0
  {
    if ScannedAt(j, round) && !j[Scan(round)].value.canceled {
      var ids := j[Scan(round)].value.ids;
      BranchesNames(j, ids);
      forall c | c in Branches(j, ids).calls
        ensures Placed(j, limits, round, c)
      {
        assert BranchOf(j, round, c.name.id);
      }
      if Branches(j, ids).end == Ended {
        RoundsPlaced(j, limits, startedAt, round + 1, used);
        forall c | c in Rounds(j, limits, startedAt, round + 1, used).calls
          ensures Placed(j, limits, round, c)
        {
          LaterIsPlaced(j, limits, round, c);
        }
      }
    }
  }

  lemma LaterIsPlaced(j: Journal, limits: Limits, round: nat, c: Call)
    requires Passed(j, round) && Placed(j, limits, round + 1, c)
    ensures Placed(j, limits, round, c)
  {}

  /** The calls of the orchestration, with the round loop starting at round 0. */
  lemma OrchestrationPlaced(j: Journal, limits: Limits)
    ensures forall c :: c in Orchestrate(j, limits).calls ==>
      c.name == Working || c.name == Started || Placed(j, limits, 0, c)
  {
    if Started in j && j[Started].Returned? && j[Started].value.Instant? {
      RoundsPlaced(j, limits, j[Started].value.ms, 0, 0);
    }
  }

  // ---- what an end says ---------------------------------------------------------------------------

  ghost predicate Names(calls: set<Call>, n: StepName) {
    exists c :: c in calls && c.name == n
  }

  lemma {:induction false} BranchEnded(j: Journal, id: nat, chunk: nat)
    requires chunk <= MAX_CHUNKS_PER_BRANCH
    requires Branch(j, id, chunk).end == Ended
    ensures BranchDone(j, id)
    decreases MAX_CHUNKS_PER_BRANCH - chunk
  {
    if chunk < MAX_CHUNKS_PER_BRANCH && j[Execute(id, chunk)].Returned? && j[Execute(id, chunk)].value != Flag(true) {
      BranchEnded(j, id, chunk + 1);
    }
  }

  /** Some chunk answered done, or the last resort did its work. */
  ghost predicate BranchDone(j: Journal, id: nat) {
    || (exists chunk :: Execute(id, chunk) in j && j[Execute(id, chunk)] == Returned(Flag(true)))
    || (FailBranch(id) in j && j[FailBranch(id)].Returned?)
  }

  /** A chunk that was recorded without finishing its branch. */
  ghost predicate NotDone(j: Journal, id: nat, chunk: nat) {
    Execute(id, chunk) in j && j[Execute(id, chunk)].Returned? && j[Execute(id, chunk)].value != Flag(true)
  }

  /** From `chunk` on, `last` is where the branch is given up: its step threw, or there is no further chunk. */
  ghost predicate GivenUpAt(j: Journal, id: nat, chunk: nat, last: nat) {
    && chunk <= last <= MAX_CHUNKS_PER_BRANCH
    && (forall c :: chunk <= c < last ==> NotDone(j, id, c))
    && (last < MAX_CHUNKS_PER_BRANCH ==> Execute(id, last) in j && j[Execute(id, last)].Threw?)
  }

  /**
   * A branch rejects exactly when some chunk's step exhausted its retries, or every
   * chunk was recorded not done, and the step that was to fail the branch exhausted
   * its own.
   */
  lemma {:induction false} BranchRejectsExactlyWhen(j: Journal, id: nat, chunk: nat)
    requires chunk <= MAX_CHUNKS_PER_BRANCH
    ensures Branch(j, id, chunk).end.Rejected? <==>
      (exists last :: GivenUpAt(j, id, chunk, last)) && FailBranch(id) in j && j[FailBranch(id)].Threw?
    decreases MAX_CHUNKS_PER_BRANCH - chunk
  {
    if chunk == MAX_CHUNKS_PER_BRANCH {
      assert GivenUpAt(j, id, chunk, chunk);
    } else if Execute(id, chunk) in j && j[Execute(id, chunk)].Threw? {
      assert GivenUpAt(j, id, chunk, chunk);
    } else if NotDone(j, id, chunk) {
      BranchRejectsExactlyWhen(j, id, chunk + 1);
      GivenUpLater(j, id, chunk, chunk + 1);
      assert Branch(j, id, chunk).end == Branch(j, id, chunk + 1).end;
    } else {
      GivenUpStarts(j, id, chunk);
    }
  }

  lemma GivenUpLater(j: Journal, id: nat, chunk: nat, next: nat)
    requires next == chunk + 1 <= MAX_CHUNKS_PER_BRANCH && NotDone(j, id, chunk)
    ensures (exists last :: GivenUpAt(j, id, chunk, last)) <==> exists last :: GivenUpAt(j, id, next, last)
  {
    if last :| GivenUpAt(j, id, chunk, last) {
      assert GivenUpAt(j, id, next, last);
    }
    if last :| GivenUpAt(j, id, next, last) {
      assert GivenUpAt(j, id, chunk, last);
    }
  }

  lemma GivenUpStarts(j: Journal, id: nat, chunk: nat)
    requires chunk < MAX_CHUNKS_PER_BRANCH
    ensures forall last :: GivenUpAt(j, id, chunk, last) ==>
      NotDone(j, id, chunk) || (Execute(id, chunk) in j && j[Execute(id, chunk)].Threw?)
  {}

  /** The give-up branch of a branch lies behind every one of its chunks. */
  lemma {:induction false} GivingUpNeedsEveryChunk(j: Journal, id: nat, chunk: nat)
    requires chunk <= MAX_CHUNKS_PER_BRANCH
    requires Call(FailBranch(id), Because(TooManyChunks)) in Branch(j, id, chunk).calls
    ensures forall c :: chunk <= c < MAX_CHUNKS_PER_BRANCH ==> NotDone(j, id, c)
    decreases MAX_CHUNKS_PER_BRANCH - chunk
  {
    if chunk < MAX_CHUNKS_PER_BRANCH {
      GivingUpNeedsEveryChunk(j, id, chunk + 1);
    }
  }

  /** A delivery is only reached once, and only a save that never applied lets the recovery in. */
  ghost predicate DeliverySound(j: Journal, p: Pass) {
    Names(p.calls, Complete(false)) ==>
      && (Complete(false) !in j ==> p.end == Waiting)
      && (Complete(false) in j && j[Complete(false)].Returned? && j[Complete(false)].value.Saved? ==> p.end != Rejected(Fault))
  }

  /** After an end that is not a rejection, each delegated round was seen through. */
  ghost predicate EndSound(j: Journal, p: Pass) {
    p.end == Ended ==>
      && (forall c :: c in p.calls ==> c.name.Execute? || c.name.FailBranch? || c.name.Sweep? || c.name in j)
      && (forall c :: c in p.calls && c.name.Turn? && DelegatedAt(j, c.name.round) ==>
            ScannedAt(j, c.name.round) && (j[Scan(c.name.round)].value.canceled || Passed(j, c.name.round)))
      && (forall c :: c in p.calls && c.name.Turn? ==> j[c.name].Returned? && j[c.name].value.Turned?)
  }

  lemma DeliverEnds(j: Journal, outcome: Outcome)
    ensures DeliverySound(j, Deliver(j, false, outcome))
    ensures EndSound(j, Deliver(j, false, outcome))
  {}

  lemma {:induction false} RoundsEnd(j: Journal, limits: Limits, startedAt: int, round: nat, used: nat)
    requires round <= limits.maxTurns + 1
    ensures DeliverySound(j, Rounds(j, limits, startedAt, round, used))
    ensures EndSound(j, Rounds(j, limits, startedAt, round, used))
    decreases limits.maxTurns + 1 - round, 1
  {
    if round > limits.maxTurns {
      DeliverEnds(j, BudgetFailure);
    } else if Deadline(round) in j && j[Deadline(round)].Returned? && j[Deadline(round)].value.Flag? {
      OneRoundEnds(j, limits, startedAt, round, used, ModeOf(limits, used, j[Deadline(round)].value.b));
    }
  }

  lemma {:induction false} OneRoundEnds(j: Journal, limits: Limits, startedAt: int, round: nat, used: nat, mode: Mode)
    requires round <= limits.maxTurns
    ensures DeliverySound(j, OneRound(j, limits, startedAt, round, used, mode))
    ensures EndSound(j, OneRound(j, limits, startedAt, round, used, mode))
    decreases limits.maxTurns + 1 - round, 0
  {
    var p := OneRound(j, limits, startedAt, round, used, mode);
    var turn := Call(Turn(round), Turning(mode, limits.maxTurns - used));
    if Turn(round) in j && j[Turn(round)].Returned? && j[Turn(round)].value.Turned? {
      var verdict, turns := j[Turn(round)].value.verdict, j[Turn(round)].value.turns;
      match verdict
      case Canceled =>
      case Failed(kind, error) =>
        DeliverEnds(j, RoundFailure(kind, error));
        CallInFront(j, turn, Deliver(j, false, RoundFailure(kind, error)), p);
      case Replied(reply) =>
        DeliverEnds(j, Answer(reply));
        CallInFront(j, turn, Deliver(j, false, Answer(reply)), p);
      case Delegated =>
        ExecutedEnds(j, limits, startedAt, round, used + turns);
        CallInFront(j, turn, Executed(j, limits, startedAt, round, used + turns), p);
    }
  }

  /** A recorded turn in front of a sound pass, when an ended pass has seen that turn's round through. */
  lemma CallInFront(j: Journal, turn: Call, rest: Pass, p: Pass)
    requires turn.name.Turn? && turn.name in j && j[turn.name].Returned? && j[turn.name].value.Turned?
    requires DeliverySound(j, rest) && EndSound(j, rest)
    requires p.calls == {turn} + rest.calls && p.end == rest.end
    requires rest.end == Ended && DelegatedAt(j, turn.name.round) ==>
      ScannedAt(j, turn.name.round) && (j[Scan(turn.name.round)].value.canceled || Passed(j, turn.name.round))
    ensures DeliverySound(j, p) && EndSound(j, p)
  {
    if Names(p.calls, Complete(false)) {
      assert Names(rest.calls, Complete(false));
    }
  }

  lemma {:induction false} ExecutedEnds(j: Journal, limits: Limits, startedAt: int, round: nat, used: nat)
    requires round <= limits.maxTurns && DelegatedAt(j, round)
    ensures DeliverySound(j, Executed(j, limits, startedAt, round, used))
    ensures EndSound(j, Executed(j, limits, startedAt, round, used))
    ensures Executed(j, limits, startedAt, round, used).end == Ended ==>
      ScannedAt(j, round) && (j[Scan(round)].value.canceled || Passed(j, round))
    decreases limits.maxTurns - round, 2
  {
    var p := Executed(j, limits, startedAt, round, used);
    if ScannedAt(j, round) && !j[Scan(round)].value.canceled {
      var branches := Branches(j, j[Scan(round)].value.ids);
      BranchesNames(j, j[Scan(round)].value.ids);
      if branches.end == Ended {
        var rest := Rounds(j, limits, startedAt, round + 1, used);
        RoundsEnd(j, limits, startedAt, round + 1, used);
        assert p.calls == {Call(Scan(round), Plain)} + branches.calls + rest.calls && p.end == rest.end;
        if Names(p.calls, Complete(false)) {
          assert Names(rest.calls, Complete(false));
        }
      }
    }
  }

  lemma OrchestrationEnds(j: Journal, limits: Limits)
    ensures DeliverySound(j, Orchestrate(j, limits))
    ensures EndSound(j, Orchestrate(j, limits))
  {
    if Started in j && j[Started].Returned? && j[Started].value.Instant? {
      RoundsEnd(j, limits, j[Started].value.ms, 0, 0);
    }
  }

  ghost predicate CanceledAt(j: Journal, r: nat) {
    Turn(r) in j && j[Turn(r)].Returned? && j[Turn(r)].value.Turned? && j[Turn(r)].value.verdict.Canceled?
  }

  /** Why a pass that was not rejected came to its end. */
  ghost predicate EndExplained(j: Journal) {
    || (Working in j && j[Working] == Returned(Flag(false)))
    || (exists r :: CanceledAt(j, r))
    || (exists r :: ScannedAt(j, r) && j[Scan(r)].value.canceled)
    || (exists a :: DeliveryOver(j, a))
  }

  /** The delivery was refused by the guarded write, or its callback went out. */
  ghost predicate DeliveryOver(j: Journal, abandoned: bool) {
    || (Complete(abandoned) in j && j[Complete(abandoned)] == Returned(Saved(None)))
    || (exists task :: SavedBy(j, abandoned, task) && Notify(abandoned) in j && j[Notify(abandoned)].Returned?)
  }

  lemma DeliverExplained(j: Journal, abandoned: bool, outcome: Outcome)
    requires Deliver(j, abandoned, outcome).end == Ended
    ensures DeliveryOver(j, abandoned)
  {
    if j[Complete(abandoned)].value.task.Some? {
      assert SavedBy(j, abandoned, j[Complete(abandoned)].value.task.value);
    }
  }

  lemma {:induction false} RoundsExplained(j: Journal, limits: Limits, startedAt: int, round: nat, used: nat)
    requires round <= limits.maxTurns + 1
    requires Rounds(j, limits, startedAt, round, used).end == Ended
    ensures EndExplained(j)
    decreases limits.maxTurns + 1 - round
  {
    if round > limits.maxTurns {
      DeliverExplained(j, false, BudgetFailure);
    } else {
      var verdict, turns := j[Turn(round)].value.verdict, j[Turn(round)].value.turns;
      match verdict
      case Canceled => assert CanceledAt(j, round);
      case Failed(kind, error) => DeliverExplained(j, false, RoundFailure(kind, error));
      case Replied(reply) => DeliverExplained(j, false, Answer(reply));
      case Delegated =>
        assert Executed(j, limits, startedAt, round, used + turns).end == Ended;
        if j[Scan(round)].value.canceled {
          assert ScannedAt(j, round);
        } else {
          RoundsExplained(j, limits, startedAt, round + 1, used + turns);
        }
    }
  }

  lemma RunExplained(j: Journal, limits: Limits)
    requires Run(j, limits).end == Ended
    ensures EndExplained(j)
  {
    if Orchestrate(j, limits).end == Rejected(Fault) {
      DeliverExplained(j, true, AbandonedFailure);
    } else if j[Working] != Returned(Flag(false)) {
      RoundsExplained(j, limits, j[Started].value.ms, 0, 0);
    }
  }

  /** One round asks at a time: two turns that are both still unrecorded are the same turn. */
  lemma OneTurnAtATime(j: Journal, limits: Limits, c: Call, d: Call)
    requires c in Orchestrate(j, limits).calls && d in Orchestrate(j, limits).calls
    requires c.name.Turn? && d.name.Turn? && c.name !in j && d.name !in j
    ensures c.name == d.name
  {
    OrchestrationPlaced(j, limits);
    assert Reached(j, 0, c.name.round) && Reached(j, 0, d.name.round);
    assert !Passed(j, c.name.round) && !Passed(j, d.name.round);
  }

  // ---- one round, and what follows it ----------------------------------------------------------------

  ghost predicate Timed(j: Journal, r: nat) {
    Deadline(r) in j && j[Deadline(r)].Returned? && j[Deadline(r)].value.Flag?
  }

  function TurnCall(limits: Limits, round: nat, used: nat, overdue: bool): Call {
    Call(Turn(round), Turning(ModeOf(limits, used, overdue), limits.maxTurns - used))
  }

  /** A round that passed: its own calls in front of those of the rounds after it. */
  lemma PassingRound(j: Journal, limits: Limits, startedAt: int, round: nat, used: nat)
    requires round <= limits.maxTurns && Timed(j, round) && Passed(j, round)
    ensures
      var turns := j[Turn(round)].value.turns;
      var p := Rounds(j, limits, startedAt, round, used);
      var rest := Rounds(j, limits, startedAt, round + 1, used + turns);
      && p.calls ==
           {Call(Deadline(round), Since(startedAt))} + ({TurnCall(limits, round, used, j[Deadline(round)].value.b)}
           + ({Call(Scan(round), Plain)} + Branches(j, j[Scan(round)].value.ids).calls + rest.calls))
      && p.turns == turns + rest.turns
  {
    hide Workflow.Rounds, Workflow.OneRound, Workflow.Executed, Workflow.Branches, Workflow.Branch;
    var turns, mode := j[Turn(round)].value.turns, ModeOf(limits, used, j[Deadline(round)].value.b);
    DeadlineFirst(j, limits, startedAt, round, used);
    PassingTurn(j, limits, startedAt, round, used, mode);
    PassingExecution(j, limits, startedAt, round, used + turns);
  }

  lemma PassingTurn(j: Journal, limits: Limits, startedAt: int, round: nat, used: nat, mode: Mode)
    requires round <= limits.maxTurns && DelegatedAt(j, round)
    ensures
      var p := OneRound(j, limits, startedAt, round, used, mode);
      var rest := Executed(j, limits, startedAt, round, used + j[Turn(round)].value.turns);
      && p.calls == {Call(Turn(round), Turning(mode, limits.maxTurns - used))} + rest.calls
      && p.turns == j[Turn(round)].value.turns + rest.turns
  {}

  lemma PassingExecution(j: Journal, limits: Limits, startedAt: int, round: nat, used: nat)
    requires round <= limits.maxTurns && Passed(j, round)
    ensures
      var p := Executed(j, limits, startedAt, round, used);
      var rest := Rounds(j, limits, startedAt, round + 1, used);
      && p.calls == {Call(Scan(round), Plain)} + Branches(j, j[Scan(round)].value.ids).calls + rest.calls
      && p.turns == rest.turns
  {}

  /** A round the loop does not get past: at most its own calls and one delivery, not of the tail. */
  lemma StoppingRound(j: Journal, limits: Limits, startedAt: int, round: nat, used: nat)
    requires round <= limits.maxTurns && !(Timed(j, round) && Passed(j, round))
    ensures
      var p := Rounds(j, limits, startedAt, round, used);
      && OneInput(p.calls)
      && TAIL !in p.calls
      && (p.turns > 0 ==>
          && Timed(j, round) && Turn(round) in j && j[Turn(round)].Returned? && j[Turn(round)].value.Turned?
          && p.turns == j[Turn(round)].value.turns
          && TurnCall(limits, round, used, j[Deadline(round)].value.b) in p.calls)
  {
    if Timed(j, round) {
      var mode := ModeOf(limits, used, j[Deadline(round)].value.b);
      var turn := OneRound(j, limits, startedAt, round, used, mode);
      StoppingTurn(j, limits, startedAt, round, used, mode);
      assert Rounds(j, limits, startedAt, round, used) == After({Call(Deadline(round), Since(startedAt))}, turn);
    }
  }

  lemma OneDelivery(j: Journal, outcome: Outcome)
    requires !outcome.BudgetFailure?
    ensures
      var p := Deliver(j, false, outcome);
      OneInput(p.calls) && p.turns == 0 && TAIL !in p.calls && forall c :: c in p.calls ==> !c.name.Deadline? && !c.name.Turn?
  {}

  lemma StoppingTurn(j: Journal, limits: Limits, startedAt: int, round: nat, used: nat, mode: Mode)
    requires round <= limits.maxTurns && !Passed(j, round)
    ensures
      var p := OneRound(j, limits, startedAt, round, used, mode);
      && OneInput(p.calls)
      && (forall c :: c in p.calls ==> !c.name.Deadline?)
      && TAIL !in p.calls
      && (p.turns > 0 ==>
          && Turn(round) in j && j[Turn(round)].Returned? && j[Turn(round)].value.Turned?
          && p.turns == j[Turn(round)].value.turns
          && Call(Turn(round), Turning(mode, limits.maxTurns - used)) in p.calls)
  {
    hide Workflow.Executed, Workflow.Branches, Workflow.Deliver;
    if Turn(round) in j && j[Turn(round)].Returned? && j[Turn(round)].value.Turned? {
      match j[Turn(round)].value.verdict
      case Failed(kind, error) => OneDelivery(j, RoundFailure(kind, error));
      case Replied(reply) => OneDelivery(j, Answer(reply));
      case _ =>
    }
    if DelegatedAt(j, round) {
      StoppingExecution(j, limits, startedAt, round, used + j[Turn(round)].value.turns);
      PassingTurn(j, limits, startedAt, round, used, mode);
    }
  }

  lemma StoppingExecution(j: Journal, limits: Limits, startedAt: int, round: nat, used: nat)
    requires round <= limits.maxTurns && DelegatedAt(j, round) && !Passed(j, round)
    ensures
      var p := Executed(j, limits, startedAt, round, used);
      && p.turns == 0
      && (forall c :: c in p.calls ==> c.name.Scan? || c.name.CancelRound? || c.name.FailBranch? || c.name.Execute?)
      && (forall c :: c in p.calls ==> c.name.FailBranch? || c.input.Plain?)
  {
    if ScannedAt(j, round) {
      BranchesNames(j, j[Scan(round)].value.ids);
    }
  }

  // ---- one name, one input -------------------------------------------------------------------------

  /** A name is asked for with one input only, except for the step that fails a branch. */
  ghost predicate OneInput(calls: set<Call>) {
    forall c, d :: c in calls && d in calls && c.name == d.name && !c.name.FailBranch? ==> c == d
  }

  lemma {:induction false} RoundsOneInput(j: Journal, limits: Limits, startedAt: int, round: nat, used: nat)
    requires round <= limits.maxTurns + 1
    ensures OneInput(Rounds(j, limits, startedAt, round, used).calls)
    decreases limits.maxTurns + 1 - round
  {
    hide Workflow.OneRound, Workflow.Executed, Workflow.Branches, Workflow.Branch;
    if round <= limits.maxTurns {
      if Timed(j, round) && Passed(j, round) {
        hide Workflow.Rounds;
        var used' := used + j[Turn(round)].value.turns;
        var ids := j[Scan(round)].value.ids;
        PassingRound(j, limits, startedAt, round, used);
        RoundsOneInput(j, limits, startedAt, round + 1, used');
        LaterCallsAreLater(j, limits, startedAt, round, used');
        BranchesNames(j, ids);
        InFront(Call(Deadline(round), Since(startedAt)), TurnCall(limits, round, used, j[Deadline(round)].value.b),
                Call(Scan(round), Plain), Branches(j, ids).calls, Rounds(j, limits, startedAt, round + 1, used').calls);
      } else {
        StoppingRound(j, limits, startedAt, round, used);
      }
    }
  }

  /** A round's own three calls and its branches' calls, in front of calls that share no name with the three. */
  lemma InFront(deadline: Call, turn: Call, scan: Call, branches: set<Call>, rest: set<Call>)
    requires deadline.name.Deadline? && turn.name.Turn? && scan.name.Scan?
    requires forall c :: c in branches ==> c.name.FailBranch? || (c.name.Execute? && c.input.Plain?)
    requires forall c :: c in rest ==> c.name !in {deadline.name, turn.name, scan.name} && (c.name.Execute? ==> c.input.Plain?)
    requires OneInput(rest)
    ensures OneInput({deadline} + ({turn} + ({scan} + branches + rest)))
  {}

  lemma LaterCallsAreLater(j: Journal, limits: Limits, startedAt: int, round: nat, used: nat)
    requires round <= limits.maxTurns
    ensures forall c :: c in Rounds(j, limits, startedAt, round + 1, used).calls ==>
      c.name != Deadline(round) && c.name != Turn(round) && c.name != Scan(round) && (c.name.Execute? ==> c.input.Plain?)
  {
    RoundsPlaced(j, limits, startedAt, round + 1, used);
  }

  lemma OrchestrationOneInput(j: Journal, limits: Limits)
    ensures OneInput(Orchestrate(j, limits).calls)
  {
    if Working in j && j[Working] == Returned(Flag(true)) && Started in j && j[Started].Returned? && j[Started].value.Instant? {
      RoundsOneInput(j, limits, j[Started].value.ms, 0, 0);
      RoundsPlaced(j, limits, j[Started].value.ms, 0, 0);
    }
  }

  /** So a recorded result is never handed to a call that meant something else. */
  lemma NamesAreAskedForOneWay(j: Journal, limits: Limits)
    ensures OneInput(Run(j, limits).calls)
  {
    OrchestrationOneInput(j, limits);
    OrchestrationPlaced(j, limits);
    var recovery := Deliver(j, true, AbandonedFailure);
    RecoveryNames(j);
    assert Run(j, limits).calls <= Orchestrate(j, limits).calls + recovery.calls;
    forall c, d | c in Run(j, limits).calls && d in Run(j, limits).calls && c.name == d.name && !c.name.FailBranch?
      ensures c == d
    {
      if c in recovery.calls {
        assert d in recovery.calls;
      } else {
        assert d !in recovery.calls;
      }
    }
  }

  /** The recovery runs under names of its own. */
  lemma RecoveryNames(j: Journal)
    ensures OneInput(Deliver(j, true, AbandonedFailure).calls)
    ensures forall c :: c in Deliver(j, true, AbandonedFailure).calls ==>
      || (c.name == Complete(true) && c.input == Delivering(AbandonedFailure)) || c.name == Sweep(true)
      || (c.name == Notify(true) && c.input.Posting? && SavedBy(j, true, c.input.task))
  {}

  // ---- metering --------------------------------------------------------------------------------------

  /** What the attempt ladder guarantees of a round: its turns are bounded, and a final round never delegates. */
  predicate Permitted(mode: Mode, remaining: int, verdict: Verdict, turns: nat) {
    turns <= RoundCeiling(remaining) && (mode.Final? ==> !verdict.Delegated?)
  }

  ghost predicate TurnsPermitted(j: Journal, calls: set<Call>) {
    forall c :: c in calls && c.name.Turn? && c.input.Turning? && c.name in j && j[c.name].Returned? && j[c.name].value.Turned?
      ==> Permitted(c.input.mode, c.input.remaining, j[c.name].value.verdict, j[c.name].value.turns)
  }

  lemma {:induction false} RoundsMetered(j: Journal, limits: Limits, startedAt: int, round: nat, used: nat)
    requires round <= limits.maxTurns + 1 && used <= limits.maxTurns + 1
    requires TurnsPermitted(j, Rounds(j, limits, startedAt, round, used).calls)
    ensures used + Rounds(j, limits, startedAt, round, used).turns <= limits.maxTurns + 3
    decreases limits.maxTurns + 1 - round
  {
    hide Workflow.OneRound, Workflow.Executed, Workflow.Branches, Workflow.Branch;
    if round <= limits.maxTurns {
      if Timed(j, round) && Passed(j, round) {
        hide Workflow.Rounds;
        PassingRound(j, limits, startedAt, round, used);
        var turn := TurnCall(limits, round, used, j[Deadline(round)].value.b);
        assert turn in Rounds(j, limits, startedAt, round, used).calls;
        assert Permitted(turn.input.mode, turn.input.remaining, j[turn.name].value.verdict, j[turn.name].value.turns);
        RoundsMetered(j, limits, startedAt, round + 1, used + j[Turn(round)].value.turns);
      } else {
        StoppingRound(j, limits, startedAt, round, used);
      }
    }
  }

  /** The round loop of an orchestration that got past its first two steps. */
  lemma RoundLoopRuns(j: Journal, limits: Limits)
    requires TAIL in Orchestrate(j, limits).calls || Orchestrate(j, limits).turns > 0
    ensures Started in j && j[Started].Returned? && j[Started].value.Instant?
    ensures
      var loop := Rounds(j, limits, j[Started].value.ms, 0, 0);
      loop.calls <= Orchestrate(j, limits).calls && loop.turns == Orchestrate(j, limits).turns
      && (TAIL in Orchestrate(j, limits).calls ==> TAIL in loop.calls)
  {}

  /** A Task meters at most its budget and three turns more, over all of its rounds. */
  lemma TaskIsMetered(j: Journal, limits: Limits)
    requires TurnsPermitted(j, Orchestrate(j, limits).calls)
    ensures Run(j, limits).turns <= limits.maxTurns + 3
  {
    if Orchestrate(j, limits).turns > 0 {
      RoundLoopRuns(j, limits);
      RoundsMetered(j, limits, j[Started].value.ms, 0, 0);
    }
  }

  /**
   * Time is up once only: a round that found the deadline passed is the last one,
   * because it was final and a final round does not delegate.
   */
  lemma {:induction false} OverdueRoundIsLast(j: Journal, limits: Limits, startedAt: int, round: nat, used: nat, overdue: nat, c: Call)
    requires round <= limits.maxTurns + 1 && round <= overdue
    requires TurnsPermitted(j, Rounds(j, limits, startedAt, round, used).calls)
    requires Timed(j, overdue) && j[Deadline(overdue)].value.b
    requires c in Rounds(j, limits, startedAt, round, used).calls && c.name.Deadline?
    ensures c.name.round <= overdue
    decreases limits.maxTurns + 1 - round
  {
    hide Workflow.OneRound, Workflow.Executed, Workflow.Branches, Workflow.Branch;
    RoundsPlaced(j, limits, startedAt, round, used);
    if c.name.round > overdue && round <= limits.maxTurns {
      assert Passed(j, round);
      hide Workflow.Rounds;
      if Timed(j, round) {
        PassingRound(j, limits, startedAt, round, used);
        BranchesNames(j, j[Scan(round)].value.ids);
        var turn := TurnCall(limits, round, used, j[Deadline(round)].value.b);
        assert turn in Rounds(j, limits, startedAt, round, used).calls;
        assert Permitted(turn.input.mode, turn.input.remaining, j[turn.name].value.verdict, j[turn.name].value.turns);
        OverdueRoundIsLast(j, limits, startedAt, round + 1, used + j[Turn(round)].value.turns, overdue, c);
      } else {
        UntimedRound(j, limits, startedAt, round, used);
      }
    }
  }

  lemma UntimedRound(j: Journal, limits: Limits, startedAt: int, round: nat, used: nat)
    requires round <= limits.maxTurns && !Timed(j, round)
    ensures Rounds(j, limits, startedAt, round, used).calls == {Call(Deadline(round), Since(startedAt))}
  {}

  const TAIL: Call := Call(Complete(false), Delivering(BudgetFailure))

  /** A delegated round that was recovered from its rows: it was metered nothing. */
  ghost predicate FreeRound(j: Journal, r: nat) {
    DelegatedAt(j, r) && j[Turn(r)].value.turns == 0
  }

  lemma {:induction false} TailNeedsFreeRound(j: Journal, limits: Limits, startedAt: int, round: nat, used: nat)
    requires round <= limits.maxTurns && round <= used
    requires TurnsPermitted(j, Rounds(j, limits, startedAt, round, used).calls)
    requires TAIL in Rounds(j, limits, startedAt, round, used).calls
    ensures exists r :: FreeRound(j, r)
    decreases limits.maxTurns - round
  {
    hide Workflow.OneRound, Workflow.Executed, Workflow.Branches, Workflow.Branch;
    if !(Timed(j, round) && Passed(j, round)) {
      StoppingRound(j, limits, startedAt, round, used);
    } else {
      PassingRound(j, limits, startedAt, round, used);
      var turn := TurnCall(limits, round, used, j[Deadline(round)].value.b);
      assert turn in Rounds(j, limits, startedAt, round, used).calls;
      assert Permitted(turn.input.mode, turn.input.remaining, j[turn.name].value.verdict, j[turn.name].value.turns);
      BranchesNames(j, j[Scan(round)].value.ids);
      if j[Turn(round)].value.turns == 0 {
        assert FreeRound(j, round);
      } else {
        TailNeedsFreeRound(j, limits, startedAt, round + 1, used + j[Turn(round)].value.turns);
      }
    }
  }

  /**
   * The loop's tail, the delivery after the last round, is reached only by a Task
   * one of whose delegated rounds was recovered for free.
   */
  lemma TailIsUnreachable(j: Journal, limits: Limits)
    requires TurnsPermitted(j, Orchestrate(j, limits).calls)
    requires forall r :: !FreeRound(j, r)
    ensures TAIL !in Run(j, limits).calls
  {
    if TAIL in Orchestrate(j, limits).calls {
      RoundLoopRuns(j, limits);
      TailNeedsFreeRound(j, limits, j[Started].value.ms, 0, 0);
    }
  }

  /** The tail is reached exactly by a loop that every round passes through. */
  lemma {:induction false} TailIsReachedExactlyWhen(j: Journal, limits: Limits, startedAt: int, round: nat, used: nat)
    requires round <= limits.maxTurns + 1
    ensures TAIL in Rounds(j, limits, startedAt, round, used).calls
      <==> forall r :: round <= r <= limits.maxTurns ==> Timed(j, r) && Passed(j, r)
    decreases limits.maxTurns + 1 - round
  {
    hide Workflow.OneRound, Workflow.Executed, Workflow.Branches, Workflow.Branch;
    if round <= limits.maxTurns {
      if Timed(j, round) && Passed(j, round) {
        hide Workflow.Rounds;
        PassingRound(j, limits, startedAt, round, used);
        BranchesNames(j, j[Scan(round)].value.ids);
        TailIsReachedExactlyWhen(j, limits, startedAt, round + 1, used + j[Turn(round)].value.turns);
      } else {
        StoppingRound(j, limits, startedAt, round, used);
      }
    }
  }

  /** The same of the whole body: it gets to the tail exactly when it starts and passes through every round. */
  lemma RunReachesTheTailExactlyWhen(j: Journal, limits: Limits)
    ensures TAIL in Run(j, limits).calls <==>
      && Working in j && j[Working] == Returned(Flag(true))
      && Started in j && j[Started].Returned? && j[Started].value.Instant?
      && forall r :: 0 <= r <= limits.maxTurns ==> Timed(j, r) && Passed(j, r)
  {
    RecoveryNames(j);
    if Started in j && j[Started].Returned? && j[Started].value.Instant? {
      TailIsReachedExactlyWhen(j, limits, j[Started].value.ms, 0, 0);
    }
  }

  /** The turns metered by the rounds before one. */
  function UsedBefore(j: Journal, round: nat): nat {
    if round == 0 then 0
    else
      var before := UsedBefore(j, round - 1);
      var turn := Turn(round - 1);
      if turn in j && j[turn].Returned? && j[turn].value.Turned? then before + j[turn].value.turns else before
  }

  /** Behind rounds that passed, the loop goes on with what they were metered. */
  lemma {:induction false} LoopGoesOn(j: Journal, limits: Limits, round: nat)
    requires round <= limits.maxTurns + 1
    requires Working in j && j[Working] == Returned(Flag(true))
    requires Started in j && j[Started].Returned? && j[Started].value.Instant?
    requires forall r :: 0 <= r < round ==> Timed(j, r) && Passed(j, r)
    ensures Rounds(j, limits, j[Started].value.ms, round, UsedBefore(j, round)).calls <= Orchestrate(j, limits).calls
    decreases round
  {
    hide Workflow.OneRound, Workflow.Executed, Workflow.Branches, Workflow.Branch;
    if round > 0 {
      LoopGoesOn(j, limits, round - 1);
      hide Workflow.Rounds, Workflow.Orchestrate;
      PassingRound(j, limits, j[Started].value.ms, round - 1, UsedBefore(j, round - 1));
    }
  }

  // ---- the names themselves --------------------------------------------------------------------------

  function Prefixed(abandoned: bool, name: string): string {
    if abandoned then "abandoned:" + name else name
  }

  /** The durable cache key of a step. Chunk 0 keeps the plain name. */
  function StepText(n: StepName): string {
    match n
    case Working => "working"
    case Started => "started"
    case Deadline(r) => "deadline:" + Text.Decimal(r)
    case Turn(r) => "turn:" + Text.Decimal(r)
    case Scan(r) => "scan:" + Text.Decimal(r)
    case CancelRound(r) => "cancel:" + Text.Decimal(r)
    case Execute(id, chunk) => "execute:" + (Text.Decimal(id) + ChunkSuffix(chunk))
    case FailBranch(id) => "fail:" + Text.Decimal(id)
    case Complete(abandoned) => Prefixed(abandoned, "complete")
    case Sweep(abandoned) => Prefixed(abandoned, "sweep")
    case Notify(abandoned) => Prefixed(abandoned, "notify")
  }

  function ChunkSuffix(chunk: nat): string {
    if chunk == 0 then "" else ":chunk:" + Text.Decimal(chunk)
  }

  /** Which kind of step a name belongs to can be read off its first twelve characters. */
  lemma NamesTellTheirKind(m: StepName, n: StepName)
    requires StepText(m) == StepText(n)
    ensures
      match m
      case Working => n.Working?
      case Started => n.Started?
      case Deadline(_) => n.Deadline?
      case Turn(_) => n.Turn?
      case Scan(_) => n.Scan?
      case CancelRound(_) => n.CancelRound?
      case Execute(_, _) => n.Execute?
      case FailBranch(_) => n.FailBranch?
      case Complete(a) => n == Complete(a)
      case Sweep(a) => n == Sweep(a)
      case Notify(a) => n == Notify(a)
  {
    var s, t := StepText(m), StepText(n);
    assert s[0] == t[0] && s[1] == t[1] && s[2] == t[2];
    if s[0] == 'a' {
      assert s[10] == t[10];
    }
  }

  /** Distinct steps, so distinct rounds, (subtask, chunk) pairs and deliveries, never share a cache key. */
  lemma StepNamesAreDistinct(m: StepName, n: StepName)
    requires StepText(m) == StepText(n)
    ensures m == n
  {
    NamesTellTheirKind(m, n);
    match m
    case Deadline(r) => SameNumeral("deadline:", r, n.round);
    case Turn(r) => SameNumeral("turn:", r, n.round);
    case Scan(r) => SameNumeral("scan:", r, n.round);
    case CancelRound(r) => SameNumeral("cancel:", r, n.round);
    case FailBranch(id) => SameNumeral("fail:", id, n.id);
    case Execute(id, chunk) =>
      Text.CancelPrefix("execute:", Text.Decimal(id) + ChunkSuffix(chunk), Text.Decimal(n.id) + ChunkSuffix(n.chunk));
      Text.NumeralSplit(id, ChunkSuffix(chunk), n.id, ChunkSuffix(n.chunk));
      if chunk > 0 && n.chunk > 0 {
        SameNumeral(":chunk:", chunk, n.chunk);
      }
    case _ =>
  }

  lemma SameNumeral(prefix: string, a: nat, b: nat)
    requires prefix + Text.Decimal(a) == prefix + Text.Decimal(b)
    ensures a == b
  {
    Text.CancelPrefix(prefix, Text.Decimal(a), Text.Decimal(b));
    Text.DecimalInjective(a, b);
  }
}
