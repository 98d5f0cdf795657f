/**
 * One round's attempts at a decision: two model slots, each allowed to repair its
 * own refused calls, all charged to one budget.
 */
module Ladder {
  import opened Budget
  import Control
  import Replay
  import Text
  import Workflow
  import Wrappers

  const MAX_REPAIR_ATTEMPTS: nat := 3

  datatype Slot = Primary | Fallback

  /** A fault nothing can clear carries the reason why. */
  type DeadKind = k: Workflow.FailureKind | !k.Exhausted? witness Workflow.Credential

  datatype Fault = Transient | Dead(kind: DeadKind) | Deterministic

  datatype Rejection = Rejection(tool: Control.Tool, input: Control.Input, why: Control.Refusal)

  /** A model call charges each step it completed, whether it returned or threw. */
  datatype Response = Finished(steps: nat, calls: seq<Control.ToolCall>, textLength: nat) | Raised(steps: nat, fault: Fault)

  /** A model as the slot, the refused calls it is shown and the steps it may take determine it. */
  type Model = (Slot, seq<Rejection>, nat) -> Response

  /** `echoes`: the refusal's words read like a transient fault. `completed`: some branch has a result to fall back on. */
  datatype Round = Round(
    mode: Mode, allowance: int, controls: Control.Controls, model: Model,
    echoes: Control.Refusal -> bool, completed: bool)

  datatype Outcome = Lost(fault: Fault) | Undecided(textLength: nat) | Refused(rejection: Rejection) | Won(decision: Control.Decision)

  datatype Attempt = Attempt(slot: Slot, shown: seq<Rejection>, spentBefore: nat, steps: nat, outcome: Outcome)

  datatype Exit = Reached(decision: Control.Decision) | Stopped(kind: DeadKind) | GaveUp

  /** A slot's run: what is spent by now, whether a transient fault was met, and how it left. */
  datatype Run = Run(spent: nat, transient: bool, exit: Exit, log: seq<Attempt>)

  datatype Result =
    | Decided(decision: Control.Decision)
    | Joined
    | Failed(kind: Workflow.FailureKind)
    | Rethrown

  datatype Turn = Turn(spent: nat, result: Result, log: seq<Attempt>)

  /** At most the steps it was allowed, and at least one when it returned. */
  ghost predicate Legal(model: Model) {
    forall slot, shown, allowed: nat :: allowed >= 1 ==>
      model(slot, shown, allowed).steps <= allowed && (model(slot, shown, allowed).Finished? ==> model(slot, shown, allowed).steps >= 1)
  }

  /** A round offers `delegate` exactly when it is open. */
  predicate Consistent(r: Round) {
    r.controls.delegable == r.mode.Open?
  }

  // ---- the ladder -------------------------------------------------------------------------

  function StepBudget(r: Round, spent: nat): (n: nat)
    ensures n >= 1
  {
    if r.mode.Final? then 1 else StepAllowance(r.allowance, spent)
  }

  function OutcomeOf(r: Round, response: Response): Outcome {
    match response
    case Raised(_, fault) => Lost(fault)
    case Finished(_, calls, textLength) =>
      match Control.EndingOf(calls, r.controls)
      case NoEnding => Undecided(textLength)
      case Rejected(tool, input, why) => Refused(Rejection(tool, input, why))
      case Decided(decision) => Won(decision)
  }

  predicate Contains(s: string, fragment: string) {
    exists i :: 0 <= i <= |s| && fragment <= s[i..]
  }

  /** A fault is known by fragments of its message, and a lost round's message quotes the length of its text. */
  predicate IsTransient(r: Round, outcome: Outcome) {
    match outcome
    case Lost(fault) => fault.Transient?
    case Undecided(textLength) => Contains(Text.Decimal(textLength), "3040") || Contains(Text.Decimal(textLength), "3046")
    case Refused(rejection) => r.echoes(rejection.why)
    case Won(_) => false
  }

  /** A refused call is worth another attempt while the slot has attempts and the round has turns. */
  predicate Repairable(r: Round, outcome: Outcome, repair: nat, spent: nat) {
    outcome.Refused? && repair < MAX_REPAIR_ATTEMPTS && spent < r.allowance
  }

  function AttemptAt(r: Round, slot: Slot, shown: seq<Rejection>, spent: nat): Attempt {
    var response := r.model(slot, shown, StepBudget(r, spent));
    Attempt(slot, shown, spent, response.steps, OutcomeOf(r, response))
  }

  /** A slot from its next attempt on, having been shown its own refused calls so far. */
  function Slotted(r: Round, slot: Slot, shown: seq<Rejection>, spent: nat, transient: bool, log: seq<Attempt>): Run
    decreases MAX_REPAIR_ATTEMPTS - |shown|
  {
    var a := AttemptAt(r, slot, shown, spent);
    var spent', transient', log' := spent + a.steps, transient || IsTransient(r, a.outcome), log + [a];
    if a.outcome.Won? then Run(spent', transient', Reached(a.outcome.decision), log')
    else if a.outcome.Lost? && a.outcome.fault.Dead? then Run(spent', transient', Stopped(a.outcome.fault.kind), log')
    else if Repairable(r, a.outcome, |shown|, spent')
    then Slotted(r, slot, shown + [a.outcome.rejection], spent', transient', log')
    else Run(spent', transient', GaveUp, log')
  }

  function Rescued(r: Round, kind: Workflow.FailureKind): Result {
    if r.completed then Joined else Failed(kind)
  }

  function Settled(r: Round, run: Run): Turn {
    match run.exit
    case Reached(decision) => Turn(run.spent, Decided(decision), run.log)
    case Stopped(kind) => Turn(run.spent, Rescued(r, kind), run.log)
    case GaveUp => Turn(run.spent, if run.transient then Rethrown else Rescued(r, Workflow.Exhausted), run.log)
  }

  function Climb(r: Round): Turn {
    var first := Slotted(r, Primary, [], 0, false, []);
    Settled(r, if first.exit.GaveUp? then Slotted(r, Fallback, [], first.spent, first.transient, first.log) else first)
  }

  // ---- the ladder as the source climbs it: a loop over repairs inside a loop over slots ---------

  method RunTurn(r: Round) returns (t: Turn)
    ensures t == Climb(r)
  {
    var spent: nat, transient, log := 0, false, [];
    for slot := 0 to 2
      invariant slot == 0 ==> spent == 0 && !transient && log == []
      invariant slot == 1 ==> Slotted(r, Primary, [], 0, false, []) == Run(spent, transient, GaveUp, log)
      invariant slot == 2 ==> Climb(r) == Settled(r, Run(spent, transient, GaveUp, log))
    {
      var run := RunSlot(r, if slot == 0 then Primary else Fallback, spent, transient, log);
      if !run.exit.GaveUp? {
        return Settled(r, run);
      }
      spent, transient, log := run.spent, run.transient, run.log;
    }
    if transient {
      return Turn(spent, Rethrown, log);
    }
    t := Turn(spent, Rescued(r, Workflow.Exhausted), log);
  }

  method RunSlot(r: Round, slot: Slot, spentBefore: nat, transientBefore: bool, logBefore: seq<Attempt>) returns (run: Run)
    ensures run == Slotted(r, slot, [], spentBefore, transientBefore, logBefore)
  {
    hide OutcomeOf, IsTransient, StepBudget;
    var shown: seq<Rejection> := [];
    var spent: nat, transient, log := spentBefore, transientBefore, logBefore;
    for repair := 0 to MAX_REPAIR_ATTEMPTS + 1
      invariant |shown| == repair <= MAX_REPAIR_ATTEMPTS
      invariant Slotted(r, slot, [], spentBefore, transientBefore, logBefore) == Slotted(r, slot, shown, spent, transient, log)
    {
      var a := AttemptAt(r, slot, shown, spent);
      spent, transient, log := spent + a.steps, transient || IsTransient(r, a.outcome), log + [a];
      if a.outcome.Won? {
        return Run(spent, transient, Reached(a.outcome.decision), log);
      }
      if a.outcome.Lost? && a.outcome.fault.Dead? {
        return Run(spent, transient, Stopped(a.outcome.fault.kind), log);
      }
      if a.outcome.Refused? && repair < MAX_REPAIR_ATTEMPTS && spent < r.allowance {
        shown := shown + [a.outcome.rejection];
        continue;
      }
      return Run(spent, transient, GaveUp, log);
    }
    assert false;
  }

  /** A slot goes on with a repair, or ends with the attempt at hand. */
  lemma SlotStep(r: Round, slot: Slot, shown: seq<Rejection>, spent: nat, transient: bool, log: seq<Attempt>)
    ensures
      var a := AttemptAt(r, slot, shown, spent);
      var spent', transient', log' := spent + a.steps, transient || IsTransient(r, a.outcome), log + [a];
      var exit :=
        if a.outcome.Won? then Reached(a.outcome.decision)
        else if a.outcome.Lost? && a.outcome.fault.Dead? then Stopped(a.outcome.fault.kind)
        else GaveUp;
      Slotted(r, slot, shown, spent, transient, log) ==
        if Repairable(r, a.outcome, |shown|, spent')
        then Slotted(r, slot, shown + [a.outcome.rejection], spent', transient', log')
        else Run(spent', transient', exit, log')
  {
    hide AttemptAt, IsTransient;
  }

  // ---- what a round costs ---------------------------------------------------------------------------

  /** A slot that starts with turns left stays within the allowance; one that does not takes a single step. */
  lemma {:induction false} SlotCost(r: Round, slot: Slot, shown: seq<Rejection>, spent: nat, transient: bool, log: seq<Attempt>)
    requires Legal(r.model)
    ensures
      var run := Slotted(r, slot, shown, spent, transient, log);
      && spent <= run.spent
      && (spent < r.allowance ==> run.spent <= r.allowance)
      && (spent >= r.allowance ==> run.spent <= spent + 1)
      && (r.mode.Final? ==> run.spent <= spent + Max(1, MAX_REPAIR_ATTEMPTS + 1 - |shown|))
      && (run.exit.Reached? ==> run.spent > spent)
    decreases MAX_REPAIR_ATTEMPTS - |shown|
  {
    hide Slotted, IsTransient;
    SlotStep(r, slot, shown, spent, transient, log);
    var a := AttemptAt(r, slot, shown, spent);
    if Repairable(r, a.outcome, |shown|, spent + a.steps) {
      SlotCost(r, slot, shown + [a.outcome.rejection], spent + a.steps, transient || IsTransient(r, a.outcome), log + [a]);
    }
  }

  /**
   * Primary, fallback and every repair together spend at most one turn above the
   * allowance, a final round at most one per attempt, and an answer or a delegation
   * was always paid for.
   */
  lemma RoundCost(r: Round)
    requires Legal(r.model)
    ensures Climb(r).spent <= RoundCeiling(r.allowance)
    ensures r.mode.Final? ==> Climb(r).spent <= 2 * (MAX_REPAIR_ATTEMPTS + 1)
    ensures r.mode.Final? && r.allowance <= 1 ==> Climb(r).spent <= 2
    ensures Climb(r).result.Decided? ==> Climb(r).spent >= 1
  {
    hide Slotted;
    var first := Slotted(r, Primary, [], 0, false, []);
    SlotCost(r, Primary, [], 0, false, []);
    SlotCost(r, Fallback, [], first.spent, first.transient, first.log);
  }

  /** The most a final round can cost under an allowance. */
  function FinalCeiling(allowance: int): nat {
    if allowance <= 0 then 2
    else if allowance <= MAX_REPAIR_ATTEMPTS + 1 then allowance + 1
    else if allowance <= 2 * (MAX_REPAIR_ATTEMPTS + 1) then allowance
    else 2 * (MAX_REPAIR_ATTEMPTS + 1)
  }

  /** A model whose every call takes one step and is refused. */
  function AlwaysRefusing(): Model {
    (slot, shown, allowed) => Finished(1, [Control.ToolCall(Control.FinalReply, Control.Malformed)], 0)
  }

  /** Where a final slot whose every attempt is refused ends. */
  function RefusedUntil(allowance: int, shown: nat, spent: nat): nat
    requires shown <= MAX_REPAIR_ATTEMPTS
  {
    if spent + 1 >= allowance then spent + 1
    else if spent + 1 + MAX_REPAIR_ATTEMPTS - shown >= allowance then allowance
    else spent + 1 + MAX_REPAIR_ATTEMPTS - shown
  }

  lemma {:induction false} FinalSlotCost(r: Round, slot: Slot, shown: seq<Rejection>, spent: nat, transient: bool, log: seq<Attempt>)
    requires Legal(r.model) && r.mode.Final? && |shown| <= MAX_REPAIR_ATTEMPTS
    ensures spent <= Slotted(r, slot, shown, spent, transient, log).spent <= RefusedUntil(r.allowance, |shown|, spent)
    decreases MAX_REPAIR_ATTEMPTS - |shown|
  {
    hide OutcomeOf, IsTransient;
    var a := AttemptAt(r, slot, shown, spent);
    if Repairable(r, a.outcome, |shown|, spent + a.steps) {
      FinalSlotCost(r, slot, shown + [a.outcome.rejection], spent + a.steps, transient || IsTransient(r, a.outcome), log + [a]);
    }
  }

  lemma {:induction false} RefusedSlotCost(r: Round, slot: Slot, shown: seq<Rejection>, spent: nat, transient: bool, log: seq<Attempt>)
    requires r.model == AlwaysRefusing() && |shown| <= MAX_REPAIR_ATTEMPTS
    ensures Slotted(r, slot, shown, spent, transient, log).exit.GaveUp?
    ensures Slotted(r, slot, shown, spent, transient, log).spent == RefusedUntil(r.allowance, |shown|, spent)
    decreases MAX_REPAIR_ATTEMPTS - |shown|
  {
    RefusalIsRefused(r);
    hide OutcomeOf, IsTransient;
    var a := AttemptAt(r, slot, shown, spent);
    if Repairable(r, a.outcome, |shown|, spent + a.steps) {
      RefusedSlotCost(r, slot, shown + [a.outcome.rejection], spent + a.steps, transient || IsTransient(r, a.outcome), log + [a]);
    }
  }

  lemma RefusalIsRefused(r: Round)
    requires r.model == AlwaysRefusing()
    ensures forall slot, shown, allowed ::
      r.model(slot, shown, allowed).steps == 1 && OutcomeOf(r, r.model(slot, shown, allowed)).Refused?
  {
    var calls := [Control.ToolCall(Control.FinalReply, Control.Malformed)];
    assert calls[..0] == [];
    assert Control.InputsTo(calls, Control.FinalReply) == [Control.Malformed];
    assert Control.InputsTo(calls, Control.Delegate) == [];
  }

  /** The ceiling is right for every allowance: no final round costs more, and one that is always refused costs it. */
  lemma FinalRoundCost(r: Round)
    requires r.mode.Final? && Legal(r.model)
    ensures Climb(r).spent <= FinalCeiling(r.allowance)
    ensures r.model == AlwaysRefusing() ==> Climb(r).spent == FinalCeiling(r.allowance)
  {
    hide Slotted;
    var first := Slotted(r, Primary, [], 0, false, []);
    FinalSlotCost(r, Primary, [], 0, false, []);
    FinalSlotCost(r, Fallback, [], first.spent, first.transient, first.log);
    if r.model == AlwaysRefusing() {
      RefusedSlotCost(r, Primary, [], 0, false, []);
      RefusedSlotCost(r, Fallback, [], first.spent, first.transient, first.log);
    }
  }

  /** What is promised of a final round: the answer costs one turn, or two. */
  ghost predicate TwoAtMost(allowance: int) {
    forall r: Round :: r.mode.Final? && r.allowance == allowance && Legal(r.model) ==> Climb(r).spent <= 2
  }

  /** The promise is kept exactly when no more than one turn is left. */
  lemma TwoAtMostExactlyWhen(allowance: int)
    ensures TwoAtMost(allowance) <==> allowance <= 1
  {
    hide Climb;
    forall r: Round | r.mode.Final? && r.allowance == allowance && Legal(r.model)
      ensures Climb(r).spent <= FinalCeiling(allowance)
    {
      FinalRoundCost(r);
    }
    var controls := Control.Controls([], false, {}, 0, (kind, params) => Wrappers.Success(params));
    var r := Round(Final, allowance, controls, AlwaysRefusing(), why => false, false);
    FinalRoundCost(r);
    assert Climb(r).spent == FinalCeiling(allowance);
  }

  /** The decision a slot reached is the ending of some response of its model. */
  lemma {:induction false} SlotDecision(r: Round, slot: Slot, shown: seq<Rejection>, spent: nat, transient: bool, log: seq<Attempt>)
    requires Slotted(r, slot, shown, spent, transient, log).exit.Reached?
    ensures exists calls ::
      Control.EndingOf(calls, r.controls) == Control.Decided(Slotted(r, slot, shown, spent, transient, log).exit.decision)
    decreases MAX_REPAIR_ATTEMPTS - |shown|
  {
    hide Control.EndingOf, IsTransient, StepBudget;
    var a := AttemptAt(r, slot, shown, spent);
    if Repairable(r, a.outcome, |shown|, spent + a.steps) {
      SlotDecision(r, slot, shown + [a.outcome.rejection], spent + a.steps, transient || IsTransient(r, a.outcome), log + [a]);
    } else {
      assert Control.EndingOf(r.model(slot, shown, StepBudget(r, spent)).calls, r.controls) == Control.Decided(a.outcome.decision);
    }
  }

  lemma ClimbDecision(r: Round) returns (calls: seq<Control.ToolCall>)
    requires Climb(r).result.Decided?
    ensures Control.EndingOf(calls, r.controls) == Control.Decided(Climb(r).result.decision)
  {
    var first := Slotted(r, Primary, [], 0, false, []);
    if first.exit.GaveUp? {
      SlotDecision(r, Fallback, [], first.spent, first.transient, first.log);
    } else {
      SlotDecision(r, Primary, [], 0, false, []);
    }
    calls :| Control.EndingOf(calls, r.controls) == Control.Decided(Climb(r).result.decision);
  }

  /** What the Workflow records for a round, when the step did not throw. */
  function VerdictOf(t: Turn, joined: string): Workflow.Verdict
    requires !t.result.Rethrown?
  {
    match t.result
    case Decided(Answer(text)) => Workflow.Replied(text)
    case Decided(Delegation(_, _)) => Workflow.Delegated
    case Joined => Workflow.Replied(joined)
    case Failed(kind) => Workflow.Failed(kind, "")
  }

  /** Every round is permitted in the sense the Task's metering needs, and a delegated one is not free. */
  lemma RoundsArePermitted(r: Round, joined: string)
    requires Legal(r.model) && Consistent(r) && !Climb(r).result.Rethrown?
    ensures Replay.Permitted(r.mode, r.allowance, VerdictOf(Climb(r), joined), Climb(r).spent)
    ensures VerdictOf(Climb(r), joined).Delegated? ==> Climb(r).spent >= 1
  {
    RoundCost(r);
    if Climb(r).result.Decided? {
      var calls := ClimbDecision(r);
      Control.DelegationDecided(calls, r.controls);
    }
  }

  // ---- the order of the attempts -----------------------------------------------------------------------

  /** What must have happened for one attempt to follow another. */
  ghost predicate Follows(r: Round, a: Attempt, b: Attempt) {
    && b.spentBefore == a.spentBefore + a.steps
    && Lives(a.outcome)
    && if b.slot == a.slot
       then a.outcome.Refused? && b.shown == a.shown + [a.outcome.rejection] && b.spentBefore < r.allowance
       else a.slot == Primary && b.slot == Fallback && b.shown == []
  }

  ghost predicate InOrder(r: Round, log: seq<Attempt>) {
    && (forall k :: 0 < k < |log| ==> Follows(r, log[k - 1], log[k]))
    && (forall k :: 0 <= k < |log| ==> |log[k].shown| <= MAX_REPAIR_ATTEMPTS)
  }

  ghost predicate Lives(outcome: Outcome) {
    !outcome.Won? && !(outcome.Lost? && outcome.fault.Dead?)
  }

  /** The log ends with an attempt of this slot, at this point of the spending. */
  ghost predicate EndsAt(run: Run, slot: Slot) {
    && run.log != []
    && var last := run.log[|run.log| - 1];
       last.slot == slot && last.spentBefore + last.steps == run.spent && (run.exit.GaveUp? ==> Lives(last.outcome))
  }

  lemma OneMoreInOrder(r: Round, log: seq<Attempt>, a: Attempt)
    requires InOrder(r, log) && |a.shown| <= MAX_REPAIR_ATTEMPTS
    requires log == [] || Follows(r, log[|log| - 1], a)
    ensures InOrder(r, log + [a])
  {}

  lemma {:induction false} SlotInOrder(r: Round, slot: Slot, shown: seq<Rejection>, spent: nat, transient: bool, log: seq<Attempt>)
    requires |shown| <= MAX_REPAIR_ATTEMPTS
    requires InOrder(r, log)
    requires log == [] || Follows(r, log[|log| - 1], AttemptAt(r, slot, shown, spent))
    ensures InOrder(r, Slotted(r, slot, shown, spent, transient, log).log)
    ensures EndsAt(Slotted(r, slot, shown, spent, transient, log), slot)
    decreases MAX_REPAIR_ATTEMPTS - |shown|
  {
    hide Slotted, InOrder, IsTransient, OutcomeOf, StepBudget;
    SlotStep(r, slot, shown, spent, transient, log);
    var a := AttemptAt(r, slot, shown, spent);
    OneMoreInOrder(r, log, a);
    if Repairable(r, a.outcome, |shown|, spent + a.steps) {
      SlotInOrder(r, slot, shown + [a.outcome.rejection], spent + a.steps, transient || IsTransient(r, a.outcome), log + [a]);
    }
  }

  /**
   * A repair answers the same model's own refusal and nothing else; the fallback
   * starts from a clean sheet; and nothing follows a decision or a dead credential.
   */
  lemma AttemptsInOrder(r: Round)
    ensures InOrder(r, Climb(r).log) && |Climb(r).log| > 0
    ensures Climb(r).log[0].slot == Primary && Climb(r).log[0].shown == [] && Climb(r).log[0].spentBefore == 0
  {
    hide Slotted, InOrder, AttemptAt;
    var first := Slotted(r, Primary, [], 0, false, []);
    NothingInOrder(r);
    SlotInOrder(r, Primary, [], 0, false, []);
    SlotStarts(r, Primary, [], 0, false, []);
    FirstAttempt(r, Primary, 0);
    FirstAttempt(r, Fallback, first.spent);
    assert first.log[0] == AttemptAt(r, Primary, [], 0);
    if first.exit.GaveUp? {
      SlotInOrder(r, Fallback, [], first.spent, first.transient, first.log);
      SlotStarts(r, Fallback, [], first.spent, first.transient, first.log);
    }
  }

  lemma NothingInOrder(r: Round)
    ensures InOrder(r, [])
  {}

  lemma FirstAttempt(r: Round, slot: Slot, spent: nat)
    ensures
      var a := AttemptAt(r, slot, [], spent);
      a.slot == slot && a.shown == [] && a.spentBefore == spent
  {}

  lemma {:induction false} SlotStarts(r: Round, slot: Slot, shown: seq<Rejection>, spent: nat, transient: bool, log: seq<Attempt>)
    ensures log + [AttemptAt(r, slot, shown, spent)] <= Slotted(r, slot, shown, spent, transient, log).log
    decreases MAX_REPAIR_ATTEMPTS - |shown|
  {
    hide Slotted, IsTransient, AttemptAt;
    SlotStep(r, slot, shown, spent, transient, log);
    var a := AttemptAt(r, slot, shown, spent);
    if Repairable(r, a.outcome, |shown|, spent + a.steps) {
      SlotStarts(r, slot, shown + [a.outcome.rejection], spent + a.steps, transient || IsTransient(r, a.outcome), log + [a]);
    }
  }

  // ---- and nothing is left out --------------------------------------------------------------------------

  /** An attempt as the model makes it of its slot, the refusals it is shown and the steps it may take. */
  ghost predicate IsTheModels(r: Round, a: Attempt) {
    var left := r.allowance - a.spentBefore;
    var response := r.model(a.slot, a.shown, if r.mode.Final? || left < 1 then 1 else left);
    && a.steps == response.steps
    && match response
       case Raised(_, fault) => a.outcome == Lost(fault)
       case Finished(_, calls, textLength) =>
         match Control.EndingOf(calls, r.controls)
         case NoEnding => a.outcome == Undecided(textLength)
         case Rejected(tool, input, why) => a.outcome == Refused(Rejection(tool, input, why))
         case Decided(decision) => a.outcome == Won(decision)
  }

  /** A refusal that the slot has attempts, and the round turns, to repair. */
  predicate OwesRepair(r: Round, a: Attempt) {
    a.outcome.Refused? && |a.shown| < 3 && a.spentBefore + a.steps < r.allowance
  }

  /** Nothing that was owed is missing: no repair, and no fallback behind a primary that lost. */
  ghost predicate IsWhole(r: Round, log: seq<Attempt>) {
    && (forall k :: 0 <= k < |log| ==> IsTheModels(r, log[k]))
    && (forall k :: 0 <= k < |log| && OwesRepair(r, log[k]) ==> k + 1 < |log| && log[k + 1].slot == log[k].slot)
    && (log != [] && Lives(log[|log| - 1].outcome) ==> log[|log| - 1].slot == Fallback)
  }

  ghost predicate Begins(log: seq<Attempt>) {
    log != [] && log[0].slot == Primary && log[0].shown == [] && log[0].spentBefore == 0
  }

  /** The laws of a round's log. */
  ghost predicate Lawful(r: Round, log: seq<Attempt>) {
    Begins(log) && InOrder(r, log) && IsWhole(r, log)
  }

  /** Every attempt is the model's, and only the last may still owe a repair. */
  ghost predicate WholeSoFar(r: Round, log: seq<Attempt>) {
    && (forall k :: 0 <= k < |log| ==> IsTheModels(r, log[k]))
    && (forall k :: 0 <= k < |log| && OwesRepair(r, log[k]) ==> k + 1 < |log| && log[k + 1].slot == log[k].slot)
  }

  /** The same of a log whose last attempt is only being made. */
  ghost predicate WholeBefore(r: Round, log: seq<Attempt>, next: Attempt) {
    var all := log + [next];
    forall k :: 0 <= k < |log| ==> IsTheModels(r, all[k]) && (OwesRepair(r, all[k]) ==> all[k + 1].slot == all[k].slot)
  }

  lemma AttemptIsTheModels(r: Round, slot: Slot, shown: seq<Rejection>, spent: nat)
    ensures IsTheModels(r, AttemptAt(r, slot, shown, spent))
  {
    hide Control.EndingOf;
  }

  lemma OneMoreWhole(r: Round, log: seq<Attempt>, a: Attempt)
    requires WholeBefore(r, log, a) && IsTheModels(r, a)
    ensures !OwesRepair(r, a) ==> WholeSoFar(r, log + [a])
    ensures forall next: Attempt :: next.slot == a.slot ==> WholeBefore(r, log + [a], next)
  {
    hide IsTheModels, OwesRepair;
    forall next: Attempt | next.slot == a.slot
      ensures WholeBefore(r, log + [a], next)
    {
      var all := log + [a] + [next];
      assert forall k :: 0 <= k <= |log| ==> all[k] == (log + [a])[k];
      assert all[|log| + 1] == next;
    }
  }

  lemma {:induction false} SlotIsWhole(r: Round, slot: Slot, shown: seq<Rejection>, spent: nat, transient: bool, log: seq<Attempt>)
    requires WholeBefore(r, log, AttemptAt(r, slot, shown, spent))
    ensures WholeSoFar(r, Slotted(r, slot, shown, spent, transient, log).log)
    decreases MAX_REPAIR_ATTEMPTS - |shown|
  {
    hide Slotted, IsTransient, OutcomeOf, StepBudget, WholeBefore, WholeSoFar, IsTheModels;
    SlotStep(r, slot, shown, spent, transient, log);
    var a := AttemptAt(r, slot, shown, spent);
    AttemptIsTheModels(r, slot, shown, spent);
    OneMoreWhole(r, log, a);
    if Repairable(r, a.outcome, |shown|, spent + a.steps) {
      SlotIsWhole(r, slot, shown + [a.outcome.rejection], spent + a.steps, transient || IsTransient(r, a.outcome), log + [a]);
    }
  }

  lemma WholeGoesOn(r: Round, log: seq<Attempt>, next: Attempt)
    requires WholeSoFar(r, log)
    ensures WholeBefore(r, log, next)
  {
    hide IsTheModels, OwesRepair;
  }

  lemma NothingIsWhole(r: Round, next: Attempt)
    ensures WholeBefore(r, [], next)
  {}

  lemma ClimbIsLawful(r: Round)
    ensures Lawful(r, Climb(r).log) && Climb(r).log != []
    ensures
      var last := Climb(r).log[|Climb(r).log| - 1];
      Climb(r).spent == last.spentBefore + last.steps
  {
    hide Slotted, AttemptAt, InOrder, WholeBefore, WholeSoFar;
    var first := Slotted(r, Primary, [], 0, false, []);
    AttemptsInOrder(r);
    NothingIsWhole(r, AttemptAt(r, Primary, [], 0));
    SlotIsWhole(r, Primary, [], 0, false, []);
    SlotEnds(r, first.spent, first.transient, first.log);
    if first.exit.GaveUp? {
      WholeGoesOn(r, first.log, AttemptAt(r, Fallback, [], first.spent));
      SlotIsWhole(r, Fallback, [], first.spent, first.transient, first.log);
    }
    WholeWhenItEnds(r, Climb(r).log);
  }

  lemma WholeWhenItEnds(r: Round, log: seq<Attempt>)
    requires WholeSoFar(r, log) && (log != [] && Lives(log[|log| - 1].outcome) ==> log[|log| - 1].slot == Fallback)
    ensures IsWhole(r, log)
  {
    hide IsTheModels, OwesRepair;
  }

  /** How the two slots leave their logs. */
  lemma SlotEnds(r: Round, spent: nat, transient: bool, log: seq<Attempt>)
    requires Slotted(r, Primary, [], 0, false, []).(exit := GaveUp) == Run(spent, transient, GaveUp, log)
    ensures EndsAt(Slotted(r, Primary, [], 0, false, []), Primary)
    ensures
      var first := Slotted(r, Primary, [], 0, false, []);
      first.exit.GaveUp? ==> EndsAt(Slotted(r, Fallback, [], spent, transient, log), Fallback)
    ensures
      var first := Slotted(r, Primary, [], 0, false, []);
      !first.exit.GaveUp? ==> !Lives(first.log[|first.log| - 1].outcome)
  {
    hide Slotted, AttemptAt, InOrder;
    NothingInOrder(r);
    SlotInOrder(r, Primary, [], 0, false, []);
    SlotExit(r, Primary, [], 0, false, []);
    FirstAttempt(r, Fallback, spent);
    if Slotted(r, Primary, [], 0, false, []).exit.GaveUp? {
      SlotInOrder(r, Fallback, [], spent, transient, log);
    }
  }

  lemma NextIsDetermined(r: Round, a: seq<Attempt>, b: seq<Attempt>, k: nat)
    requires Lawful(r, a) && Lawful(r, b) && 0 < k <= |a| && k < |b| && a[..k] == b[..k]
    ensures k < |a| && a[k] == b[k]
  {
    hide Control.EndingOf;
    var last := b[k - 1];
    assert a[..k][k - 1] == b[..k][k - 1] == a[k - 1];
    assert Follows(r, last, b[k]);
    assert |b[k].shown| <= MAX_REPAIR_ATTEMPTS;
    if b[k].slot == last.slot {
      assert OwesRepair(r, a[k - 1]);
    }
    assert k < |a|;
    assert Follows(r, a[k - 1], a[k]);
    assert |a[k].shown| <= MAX_REPAIR_ATTEMPTS;
    if a[k].slot == last.slot {
      assert OwesRepair(r, last);
    }
    assert IsTheModels(r, a[k]) && IsTheModels(r, b[k]);
  }

  lemma SameBeginning(r: Round, a: seq<Attempt>, b: seq<Attempt>)
    requires Lawful(r, a) && Lawful(r, b)
    ensures a[..1] == b[..1]
  {
    hide Control.EndingOf, InOrder;
    assert IsTheModels(r, a[0]) && IsTheModels(r, b[0]);
  }

  lemma {:induction false} LawsDetermine(r: Round, a: seq<Attempt>, b: seq<Attempt>, k: nat)
    requires Lawful(r, a) && Lawful(r, b) && k <= |b|
    ensures k <= |a| && a[..k] == b[..k]
    decreases k
  {
    if k == 1 {
      SameBeginning(r, a, b);
    } else if k > 1 {
      hide Lawful;
      LawsDetermine(r, a, b, k - 1);
      NextIsDetermined(r, a, b, k - 1);
      assert a[..k] == a[..k - 1] + [a[k - 1]] && b[..k] == b[..k - 1] + [b[k - 1]];
    }
  }

  /**
   * A round's log is the one lawful log: it begins with the primary, each attempt is
   * what the model makes of what it is shown and may spend, every refusal that can be
   * repaired is, and a primary that lost is followed by the fallback, in either mode.
   */
  lemma LogIsTheLawfulOne(r: Round, log: seq<Attempt>)
    ensures log == Climb(r).log <==> Lawful(r, log)
    ensures Climb(r).log != []
    ensures
      var last := Climb(r).log[|Climb(r).log| - 1];
      Climb(r).spent == last.spentBefore + last.steps
  {
    hide Climb, Lawful;
    ClimbIsLawful(r);
    if Lawful(r, log) {
      LawsDetermine(r, log, Climb(r).log, |Climb(r).log|);
      LawsDetermine(r, Climb(r).log, log, |log|);
      assert log[..|log|] == log && Climb(r).log[..|Climb(r).log|] == Climb(r).log;
    }
  }

  /** Under a positive allowance only the fallback's first attempt can begin with nothing left. */
  lemma OnlyTheFallbackOverdraws(r: Round, k: nat)
    requires r.allowance >= 1 && k < |Climb(r).log|
    requires Climb(r).log[k].spentBefore >= r.allowance
    ensures Climb(r).log[k].slot == Fallback && Climb(r).log[k].shown == []
  {
    AttemptsInOrder(r);
    if k > 0 {
      assert Follows(r, Climb(r).log[k - 1], Climb(r).log[k]);
    }
  }

  /** A fault that a retry may clear, a lost round whose text's length reads like one, or a refusal in its words. */
  ghost predicate MayClear(r: Round, outcome: Outcome) {
    || outcome == Lost(Transient)
    || (outcome.Undecided? && Contains(Text.Decimal(outcome.textLength), "3040"))
    || (outcome.Undecided? && Contains(Text.Decimal(outcome.textLength), "3046"))
    || (outcome.Refused? && r.echoes(outcome.rejection.why))
  }

  /** Some attempt met what reads like a transient fault. */
  ghost predicate MetTransient(r: Round, log: seq<Attempt>) {
    exists k :: 0 <= k < |log| && MayClear(r, log[k].outcome)
  }

  lemma TransientMayClear(r: Round, outcome: Outcome)
    ensures IsTransient(r, outcome) <==> MayClear(r, outcome)
  {
    hide Contains;
  }

  lemma OneMoreTransient(r: Round, log: seq<Attempt>, a: Attempt)
    ensures MetTransient(r, log + [a]) <==> MetTransient(r, log) || IsTransient(r, a.outcome)
  {
    TransientMayClear(r, a.outcome);
    hide MayClear, IsTransient;
    assert (log + [a])[|log|] == a;
    assert forall k :: 0 <= k < |log| ==> (log + [a])[k] == log[k];
  }

  lemma {:induction false} SlotTransient(r: Round, slot: Slot, shown: seq<Rejection>, spent: nat, transient: bool, log: seq<Attempt>)
    requires transient == MetTransient(r, log)
    ensures Slotted(r, slot, shown, spent, transient, log).transient == MetTransient(r, Slotted(r, slot, shown, spent, transient, log).log)
    decreases MAX_REPAIR_ATTEMPTS - |shown|
  {
    hide Slotted, MetTransient, IsTransient, AttemptAt;
    SlotStep(r, slot, shown, spent, transient, log);
    var a := AttemptAt(r, slot, shown, spent);
    OneMoreTransient(r, log, a);
    if Repairable(r, a.outcome, |shown|, spent + a.steps) {
      SlotTransient(r, slot, shown + [a.outcome.rejection], spent + a.steps, transient || IsTransient(r, a.outcome), log + [a]);
    }
  }

  lemma NothingMet(r: Round)
    ensures !MetTransient(r, [])
  {}

  lemma {:induction false} SlotExit(r: Round, slot: Slot, shown: seq<Rejection>, spent: nat, transient: bool, log: seq<Attempt>)
    ensures
      var run := Slotted(r, slot, shown, spent, transient, log);
      && run.log != []
      && var last := run.log[|run.log| - 1].outcome;
         match run.exit
         case Reached(decision) => last == Won(decision)
         case Stopped(kind) => last.Lost? && last.fault == Dead(kind)
         case GaveUp => Lives(last)
    decreases MAX_REPAIR_ATTEMPTS - |shown|
  {
    hide Slotted, IsTransient, AttemptAt;
    SlotStep(r, slot, shown, spent, transient, log);
    var a := AttemptAt(r, slot, shown, spent);
    if Repairable(r, a.outcome, |shown|, spent + a.steps) {
      SlotExit(r, slot, shown + [a.outcome.rejection], spent + a.steps, transient || IsTransient(r, a.outcome), log + [a]);
    }
  }

  /** Which way a round leaves, told by its last attempt, what it met before and what is durable. */
  ghost predicate LeavesRightly(r: Round, t: Turn) {
    && t.log != []
    && var last := t.log[|t.log| - 1].outcome;
       match t.result
       case Decided(decision) => last == Won(decision)
       case Rethrown => Lives(last) && MetTransient(r, t.log)
       case Joined => r.completed && !last.Won? && (Lives(last) ==> !MetTransient(r, t.log))
       case Failed(kind) =>
         && !r.completed && !last.Won?
         && if Lives(last) then kind.Exhausted? && !MetTransient(r, t.log) else kind == last.fault.kind
  }

  lemma ResultExactly(r: Round)
    ensures LeavesRightly(r, Climb(r))
  {
    hide MetTransient, IsTransient, Slotted;
    var first := Slotted(r, Primary, [], 0, false, []);
    NothingMet(r);
    SlotTransient(r, Primary, [], 0, false, []);
    SlotExit(r, Primary, [], 0, false, []);
    if first.exit.GaveUp? {
      SlotTransient(r, Fallback, [], first.spent, first.transient, first.log);
      SlotExit(r, Fallback, [], first.spent, first.transient, first.log);
    }
  }

  /** A model that only narrates, 3040 characters at a time, is taken for one that is short of capacity. */
  lemma NarrationCanReadAsTransient(r: Round)
    requires forall slot, shown, allowed :: r.model(slot, shown, allowed) == Finished(1, [], 3040)
    ensures Legal(r.model) && Climb(r).result.Rethrown?
  {
    assert Text.Decimal(3040) == "3040" by {
      assert Text.Decimal(3) == "3" && Text.Decimal(30) == "30" && Text.Decimal(304) == "304";
    }
    assert "3040" <= Text.Decimal(3040)[0..];
    assert Control.EndingOf([], r.controls) == Control.NoEnding;
  }
}
