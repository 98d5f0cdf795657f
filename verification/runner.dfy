/**
 * One durable chunk of a recipe's run: model calls under a shared turn budget, a
 * checkpoint after every turn, and a report when the budget is spent.
 */
module Runner {
  import opened Wrappers
  import Budget
  import Ladder
  import Text
  import Transcript

  /** What a checkpoint holds. */
  datatype State = State(messages: seq<Transcript.Message>, turns: nat, llmCalls: nat, startedAt: int)

  datatype Deps = Deps(seed: Transcript.Message, maxTurns: nat, maxWallMs: int, window: nat, keep: Transcript.Keep)

  datatype CallEnd = Stopped(text: string) | Truncated(text: string) | Boundary(text: string) | Raised(fault: Ladder.Fault)

  /** A model call: the turns it completed, how it ended, and whether the run was interrupted by then. */
  datatype ModelCall = ModelCall(steps: seq<seq<Transcript.Message>>, end: CallEnd, aborted: bool)

  /** Everything a chunk meets: interruptions, the clock as it starts, enters and leaves, and its model calls. */
  datatype Script = Script(
    abortedFirst: bool, starts: int, enters: int, primary: ModelCall, fallback: ModelCall,
    leaves: int, summary: ModelCall, secondSummary: ModelCall)

  datatype Attempt = Completed(text: string) | Unfinished | Aborted | Lost(fault: Option<Ladder.Fault>)

  datatype Result = Reported(text: string) | Blocked(kind: Ladder.DeadKind) | Exhausted

  /** `interrupted`: the yield is an abort's, and nothing terminal was produced. */
  datatype Outcome = Terminal(result: Result) | Yielded(interrupted: bool) | Thrown

  /** `saved`: the checkpoints, in order. */
  datatype ChunkRun = ChunkRun(state: State, outcome: Outcome, saved: seq<State>)

  const NOTICE := "Reached the execution budget without producing a final report."

  // ---- the chunk as a function ---------------------------------------------------------------

  function Judged(call: ModelCall): Attempt {
    if call.aborted then Aborted
    else
      match call.end
      case Raised(fault) => Lost(Some(fault))
      case Truncated(_) => Lost(None)
      case Stopped(text) => if Text.Trim(text) == "" then Lost(None) else Completed(Text.Trim(text))
      case Boundary(_) => Unfinished
  }

  /** A summary is a single call without tools: whatever text it returns is the report, cut short or not. */
  function JudgedSummary(call: ModelCall): Attempt {
    if call.aborted then Aborted
    else
      match call.end
      case Raised(fault) => Lost(Some(fault))
      case _ => if Text.Trim(call.end.text) == "" then Lost(None) else Completed(Text.Trim(call.end.text))
  }

  function Stepped(s: State, d: Deps, step: seq<Transcript.Message>): State {
    s.(turns := s.turns + 1, messages := Transcript.Trim(s.messages + step, d.window, d.keep))
  }

  function Walked(s: State, d: Deps, steps: seq<seq<Transcript.Message>>): State
    decreases steps
  {
    if steps == [] then s else Stepped(Walked(s, d, steps[..|steps| - 1]), d, steps[|steps| - 1])
  }

  function Checkpoints(s: State, d: Deps, steps: seq<seq<Transcript.Message>>): seq<State>
    decreases steps
  {
    if steps == [] then [] else Checkpoints(s, d, steps[..|steps| - 1]) + [Walked(s, d, steps)]
  }

  function Called(s: State, d: Deps, call: ModelCall): State {
    Walked(s.(llmCalls := s.llmCalls + 1), d, call.steps)
  }

  function SavedBy(s: State, d: Deps, call: ModelCall): seq<State> {
    Checkpoints(s.(llmCalls := s.llmCalls + 1), d, call.steps)
  }

  predicate TransientLoss(a: Attempt) {
    a.Lost? && a.fault.Some? && a.fault.value.Transient?
  }

  predicate DeadLoss(a: Attempt) {
    a.Lost? && a.fault.Some? && a.fault.value.Dead?
  }

  predicate Spent(s: State, d: Deps, now: int) {
    s.turns >= d.maxTurns || now - s.startedAt >= d.maxWallMs
  }

  /** The budget is spent: one more call, or two, to report; its turns are not charged. */
  function Summarized(s: State, script: Script, saved: seq<State>): ChunkRun {
    var first, second := JudgedSummary(script.summary), JudgedSummary(script.secondSummary);
    var once, twice := s.(llmCalls := s.llmCalls + 1), s.(llmCalls := s.llmCalls + 2);
    match first
    case Aborted => ChunkRun(once, Yielded(true), saved)
    case Completed(text) => ChunkRun(once, Terminal(Reported(text)), saved)
    case _ =>
      if DeadLoss(first) then ChunkRun(once, Terminal(Blocked(first.fault.value.kind)), saved)
      else
        match second
        case Aborted => ChunkRun(twice, Yielded(true), saved)
        case Completed(text) => ChunkRun(twice, Terminal(Reported(text)), saved)
        case _ =>
          if TransientLoss(first) || TransientLoss(second) then ChunkRun(twice, Thrown, saved)
          else ChunkRun(twice, Terminal(Reported(NOTICE)), saved)
  }

  /** What an attempt that did not fail comes to. */
  function Concluded(s: State, d: Deps, a: Attempt, script: Script, saved: seq<State>): ChunkRun {
    match a
    case Completed(text) => ChunkRun(s, Terminal(Reported(text)), saved)
    case Aborted => ChunkRun(s, Yielded(true), saved)
    case _ => if Spent(s, d, script.leaves) then Summarized(s, script, saved) else ChunkRun(s, Yielded(false), saved)
  }

  function Fresh(prev: Option<State>, d: Deps, now: int): State {
    if prev.Some? then prev.value else State([d.seed], 0, 0, now)
  }

  /** The fallback's attempt, charged for what the primary has spent. */
  function FallenBack(s: State, d: Deps, first: Attempt, script: Script, saved: seq<State>): ChunkRun {
    var second, after, all := Judged(script.fallback), Called(s, d, script.fallback), saved + SavedBy(s, d, script.fallback);
    if !second.Lost? then Concluded(after, d, second, script, all)
    else if TransientLoss(first) || TransientLoss(second) then ChunkRun(after, Thrown, all)
    else ChunkRun(after, Terminal(Exhausted), all)
  }

  function Worked(s: State, d: Deps, script: Script): ChunkRun {
    var first, after, saved := Judged(script.primary), Called(s, d, script.primary), SavedBy(s, d, script.primary);
    if !first.Lost? then Concluded(after, d, first, script, saved)
    else if DeadLoss(first) then ChunkRun(after, Terminal(Blocked(first.fault.value.kind)), saved)
    else FallenBack(after, d, first, script, saved)
  }

  function Chunk(prev: Option<State>, d: Deps, script: Script): ChunkRun {
    var s := Fresh(prev, d, script.starts);
    if script.abortedFirst then ChunkRun(s, Yielded(true), [])
    else if Spent(s, d, script.enters) then Summarized(s, script, [])
    else Worked(s, d, script)
  }

  /** A call takes at most the steps it was allowed, and at least one when it returned. */
  predicate WithinAllowance(call: ModelCall, d: Deps, turns: nat) {
    |call.steps| <= Budget.StepAllowance(d.maxTurns, turns) && (!call.end.Raised? ==> |call.steps| >= 1)
  }

  predicate Legal(prev: Option<State>, d: Deps, script: Script) {
    var turns := if prev.Some? then prev.value.turns else 0;
    WithinAllowance(script.primary, d, turns) && WithinAllowance(script.fallback, d, turns + |script.primary.steps|)
  }

  // ---- the chunk as the source runs it ------------------------------------------------------------

  /** One model call, with the checkpoint after each of its turns. */
  method Call(state: State, d: Deps, call: ModelCall) returns (s: State, saved: seq<State>, a: Attempt)
    ensures s == Called(state, d, call) && saved == SavedBy(state, d, call) && a == Judged(call)
  {
    hide Transcript.Trim;
    s := state.(llmCalls := state.llmCalls + 1);
    saved := [];
    for i := 0 to |call.steps|
      invariant s == Walked(state.(llmCalls := state.llmCalls + 1), d, call.steps[..i])
      invariant saved == Checkpoints(state.(llmCalls := state.llmCalls + 1), d, call.steps[..i])
    {
      assert call.steps[..i + 1][..i] == call.steps[..i];
      s := s.(turns := s.turns + 1);
      s := s.(messages := Transcript.Trim(s.messages + call.steps[i], d.window, d.keep));
      saved := saved + [s];
    }
    assert call.steps[..|call.steps|] == call.steps;
    a := Judged(call);
  }

  method RunResumableChunk(prev: Option<State>, d: Deps, script: Script) returns (r: ChunkRun)
    ensures r == Chunk(prev, d, script)
  {
    var state := if prev.Some? then prev.value else State([d.seed], 0, 0, script.starts);
    if script.abortedFirst {
      return ChunkRun(state, Yielded(true), []);
    }
    if state.turns >= d.maxTurns || script.enters - state.startedAt >= d.maxWallMs {
      r := SummarizeBudget(state, script, []);
      return;
    }
    var saved, a;
    state, saved, a := Call(state, d, script.primary);
    if a.Aborted? {
      return ChunkRun(state, Yielded(true), saved);
    }
    if a.Lost? {
      if DeadLoss(a) {
        return ChunkRun(state, Terminal(Blocked(a.fault.value.kind)), saved);
      }
      var primaryFailure, more := a, [];
      state, more, a := Call(state, d, script.fallback);
      saved := saved + more;
      if a.Aborted? {
        return ChunkRun(state, Yielded(true), saved);
      }
      if a.Lost? {
        return ChunkRun(state, if TransientLoss(a) || TransientLoss(primaryFailure) then Thrown else Terminal(Exhausted), saved);
      }
    }
    if a.Completed? {
      return ChunkRun(state, Terminal(Reported(a.text)), saved);
    }
    if state.turns >= d.maxTurns || script.leaves - state.startedAt >= d.maxWallMs {
      r := SummarizeBudget(state, script, saved);
      return;
    }
    return ChunkRun(state, Yielded(false), saved);
  }

  method SummarizeBudget(before: State, script: Script, saved: seq<State>) returns (r: ChunkRun)
    ensures r == Summarized(before, script, saved)
  {
    var state := before.(llmCalls := before.llmCalls + 1);
    var a := JudgedSummary(script.summary);
    if a.Aborted? {
      return ChunkRun(state, Yielded(true), saved);
    }
    if a.Lost? {
      if DeadLoss(a) {
        return ChunkRun(state, Terminal(Blocked(a.fault.value.kind)), saved);
      }
      var primaryFailure := a;
      state := state.(llmCalls := state.llmCalls + 1);
      a := JudgedSummary(script.secondSummary);
      if a.Aborted? {
        return ChunkRun(state, Yielded(true), saved);
      }
      if a.Lost? {
        return ChunkRun(state, if TransientLoss(a) || TransientLoss(primaryFailure) then Thrown else Terminal(Reported(NOTICE)), saved);
      }
    }
    return ChunkRun(state, Terminal(Reported(a.text)), saved);
  }

  // ---- what a chunk costs and how far it gets -----------------------------------------------------------

  lemma {:induction false} WalkedTurns(s: State, d: Deps, steps: seq<seq<Transcript.Message>>)
    ensures Walked(s, d, steps).turns == s.turns + |steps|
    decreases steps
  {
    if steps != [] {
      WalkedTurns(s, d, steps[..|steps| - 1]);
    }
  }

  lemma {:induction false} CheckpointTurns(s: State, d: Deps, steps: seq<seq<Transcript.Message>>)
    ensures |Checkpoints(s, d, steps)| == |steps|
    ensures forall i :: 0 <= i < |steps| ==> Checkpoints(s, d, steps)[i].turns == s.turns + i + 1
    decreases steps
  {
    if steps != [] {
      CheckpointTurns(s, d, steps[..|steps| - 1]);
      WalkedTurns(s, d, steps);
    }
  }

  function TurnsOf(prev: Option<State>): nat {
    if prev.Some? then prev.value.turns else 0
  }

  /** Each checkpoint is one turn on from the last, the state is where they end, and that is not past `high`. */
  ghost predicate Climbs(low: nat, state: State, saved: seq<State>, high: nat) {
    && state.turns == low + |saved| <= high
    && forall i :: 0 <= i < |saved| ==> saved[i].turns == low + i + 1
  }

  lemma CalledClimbs(low: nat, s: State, saved: seq<State>, d: Deps, call: ModelCall, high: nat)
    requires Climbs(low, s, saved, high) && s.turns + |call.steps| <= high
    ensures Climbs(low, Called(s, d, call), saved + SavedBy(s, d, call), high)
    ensures Called(s, d, call).turns == s.turns + |call.steps|
  {
    hide Transcript.Trim, Walked, Checkpoints;
    WalkedTurns(s.(llmCalls := s.llmCalls + 1), d, call.steps);
    CheckpointTurns(s.(llmCalls := s.llmCalls + 1), d, call.steps);
  }

  /** A run that stopped where it was, or reported there. */
  ghost predicate Ends(r: ChunkRun, s: State, saved: seq<State>) {
    r.state.turns == s.turns && r.saved == saved && r.outcome != Yielded(false)
  }

  lemma SummaryEnds(s: State, script: Script, saved: seq<State>)
    ensures Ends(Summarized(s, script, saved), s, saved)
  {}

  lemma ConclusionEnds(s: State, d: Deps, a: Attempt, script: Script, saved: seq<State>)
    requires !a.Lost?
    ensures
      var r := Concluded(s, d, a, script, saved);
      Ends(r, s, saved) || (r == ChunkRun(s, Yielded(false), saved) && s.turns < d.maxTurns && a.Unfinished?)
  {
    SummaryEnds(s, script, saved);
  }

  /** A chunk that got where its turns say, and yielded only further on and inside the budget. */
  ghost predicate Advances(low: nat, r: ChunkRun, d: Deps) {
    && Climbs(low, r.state, r.saved, d.maxTurns + 1)
    && (r.outcome == Yielded(false) ==> low < r.state.turns < d.maxTurns)
  }

  lemma FallingBackAdvances(low: nat, s: State, d: Deps, first: Attempt, script: Script, saved: seq<State>)
    requires Climbs(low, s, saved, d.maxTurns + 1) && s.turns + |script.fallback.steps| <= d.maxTurns + 1
    requires !script.fallback.end.Raised? ==> |script.fallback.steps| >= 1
    ensures Advances(low, FallenBack(s, d, first, script, saved), d)
  {
    hide Called, SavedBy, Concluded;
    CalledClimbs(low, s, saved, d, script.fallback, d.maxTurns + 1);
    if !Judged(script.fallback).Lost? {
      ConclusionEnds(Called(s, d, script.fallback), d, Judged(script.fallback), script, saved + SavedBy(s, d, script.fallback));
    }
  }

  lemma WorkAdvances(s: State, d: Deps, script: Script)
    requires WithinAllowance(script.primary, d, s.turns) && WithinAllowance(script.fallback, d, s.turns + |script.primary.steps|)
    requires s.turns < d.maxTurns
    ensures Advances(s.turns, Worked(s, d, script), d)
  {
    hide Called, SavedBy, Concluded, FallenBack;
    var after, saved := Called(s, d, script.primary), SavedBy(s, d, script.primary);
    CalledClimbs(s.turns, s, [], d, script.primary, d.maxTurns + 1);
    assert [] + saved == saved;
    if !Judged(script.primary).Lost? {
      ConclusionEnds(after, d, Judged(script.primary), script, saved);
    } else {
      FallingBackAdvances(s.turns, after, d, Judged(script.primary), script, saved);
    }
  }

  /**
   * A chunk's turns only climb and never pass the budget by more than one; and a
   * yield that no abort caused got somewhere and still has turns left.
   */
  lemma ChunkAdvances(prev: Option<State>, d: Deps, script: Script)
    requires Legal(prev, d, script) && TurnsOf(prev) <= d.maxTurns + 1
    ensures Advances(TurnsOf(prev), Chunk(prev, d, script), d)
  {
    hide Worked, Summarized;
    var s := Fresh(prev, d, script.starts);
    SummaryEnds(s, script, []);
    if !script.abortedFirst && !Spent(s, d, script.enters) {
      WorkAdvances(s, d, script);
    }
  }

  ghost predicate HasText(o: Outcome) {
    o.Terminal? && o.result.Reported? ==> !Text.Blank(o.result.text)
  }

  lemma JudgedHasText(call: ModelCall)
    ensures Judged(call).Completed? ==> !Text.Blank(Judged(call).text)
    ensures JudgedSummary(call).Completed? ==> !Text.Blank(JudgedSummary(call).text)
  {
    if !call.end.Raised? {
      Text.TrimKeepsText(call.end.text);
    }
  }

  lemma SummaryHasText(s: State, script: Script, saved: seq<State>)
    ensures HasText(Summarized(s, script, saved).outcome)
  {
    JudgedHasText(script.summary);
    JudgedHasText(script.secondSummary);
    NoticeHasText();
  }

  /** A report always has text, so no parent ever finds a completed result unusable. */
  lemma ReportsHaveText(prev: Option<State>, d: Deps, script: Script)
    ensures HasText(Chunk(prev, d, script).outcome)
  {
    hide Summarized, Judged, Called, SavedBy;
    var s := Fresh(prev, d, script.starts);
    var s1, saved1 := Called(s, d, script.primary), SavedBy(s, d, script.primary);
    JudgedHasText(script.primary);
    JudgedHasText(script.fallback);
    SummaryHasText(s, script, []);
    SummaryHasText(s1, script, saved1);
    SummaryHasText(Called(s1, d, script.fallback), script, saved1 + SavedBy(s1, d, script.fallback));
  }

  lemma NoticeHasText()
    ensures !Text.Blank(NOTICE)
  {
    var last := NOTICE[|NOTICE| - 1];
    assert last == '.';
    assert !Text.IsSpace(last);
  }

  // ---- what a chunk comes to, told from the calls it met ------------------------------------------------

  /** The model stopped of its own accord, with this text. */
  predicate Stops(call: ModelCall, text: string) {
    !call.aborted && call.end.Stopped? && text == Text.Trim(call.end.text) && text != ""
  }

  /** A boundary cut the call's loop short. */
  predicate Goes(call: ModelCall) {
    !call.aborted && call.end.Boundary?
  }

  predicate Fails(call: ModelCall) {
    !call.aborted && (call.end.Raised? || call.end.Truncated? || (call.end.Stopped? && Text.Blank(call.end.text)))
  }

  predicate Dies(call: ModelCall) {
    call.end.Raised? && call.end.fault.Dead?
  }

  predicate MayRecover(call: ModelCall) {
    call.end.Raised? && call.end.fault.Transient?
  }

  /** A report call is read for its text alone. */
  predicate Writes(call: ModelCall, text: string) {
    !call.aborted && !call.end.Raised? && text == Text.Trim(call.end.text) && text != ""
  }

  predicate WritesNothing(call: ModelCall) {
    !call.aborted && (call.end.Raised? || Text.Blank(call.end.text))
  }

  function StartOf(prev: Option<State>, script: Script): int {
    if prev.Some? then prev.value.startedAt else script.starts
  }

  /** The run's budget, turns or time since its very first chunk, is used up. */
  predicate Over(prev: Option<State>, d: Deps, script: Script, taken: nat, now: int) {
    TurnsOf(prev) + taken >= d.maxTurns || now >= StartOf(prev, script) + d.maxWallMs
  }

  predicate AsksPrimary(prev: Option<State>, d: Deps, script: Script) {
    !script.abortedFirst && !Over(prev, d, script, 0, script.enters)
  }

  predicate AsksFallback(prev: Option<State>, d: Deps, script: Script) {
    AsksPrimary(prev, d, script) && Fails(script.primary) && !Dies(script.primary)
  }

  /** A report is asked for on entry, or behind a call that had more to do. */
  predicate AsksReport(prev: Option<State>, d: Deps, script: Script) {
    var one, two := |script.primary.steps|, |script.primary.steps| + |script.fallback.steps|;
    && !script.abortedFirst
    && (|| Over(prev, d, script, 0, script.enters)
        || (AsksPrimary(prev, d, script) && Goes(script.primary) && Over(prev, d, script, one, script.leaves))
        || (AsksFallback(prev, d, script) && Goes(script.fallback) && Over(prev, d, script, two, script.leaves)))
  }

  predicate AsksReportAgain(prev: Option<State>, d: Deps, script: Script) {
    AsksReport(prev, d, script) && WritesNothing(script.summary) && !Dies(script.summary)
  }

  /** The two calls were lost, and no retry of the chunk could change that. */
  predicate LostForGood(first: ModelCall, second: ModelCall) {
    !MayRecover(first) && !MayRecover(second)
  }

  ghost predicate Reports(prev: Option<State>, d: Deps, script: Script, text: string) {
    || (AsksPrimary(prev, d, script) && Stops(script.primary, text))
    || (AsksFallback(prev, d, script) && Stops(script.fallback, text))
    || (AsksReport(prev, d, script) && Writes(script.summary, text))
    || (AsksReportAgain(prev, d, script) && Writes(script.secondSummary, text))
    || (AsksReportAgain(prev, d, script) && WritesNothing(script.secondSummary)
        && LostForGood(script.summary, script.secondSummary)
        && text == "Reached the execution budget without producing a final report.")
  }

  ghost predicate IsBlocked(prev: Option<State>, d: Deps, script: Script, kind: Ladder.DeadKind) {
    || (AsksPrimary(prev, d, script) && !script.primary.aborted && Dies(script.primary) && kind == script.primary.end.fault.kind)
    || (AsksReport(prev, d, script) && !script.summary.aborted && Dies(script.summary) && kind == script.summary.end.fault.kind)
  }

  ghost predicate Throws(prev: Option<State>, d: Deps, script: Script) {
    || (AsksFallback(prev, d, script) && Fails(script.fallback) && !LostForGood(script.primary, script.fallback))
    || (AsksReportAgain(prev, d, script) && WritesNothing(script.secondSummary)
        && !LostForGood(script.summary, script.secondSummary))
  }

  ghost predicate IsInterrupted(prev: Option<State>, d: Deps, script: Script) {
    || script.abortedFirst
    || (AsksPrimary(prev, d, script) && script.primary.aborted)
    || (AsksFallback(prev, d, script) && script.fallback.aborted)
    || (AsksReport(prev, d, script) && script.summary.aborted)
    || (AsksReportAgain(prev, d, script) && script.secondSummary.aborted)
  }

  /** A chunk's result, read off the calls that were made: each kind of it exactly when. */
  ghost predicate ComesTo(prev: Option<State>, d: Deps, script: Script, o: Outcome) {
    match o
    case Terminal(Reported(text)) => Reports(prev, d, script, text)
    case Terminal(Blocked(kind)) => IsBlocked(prev, d, script, kind)
    case Terminal(Exhausted) =>
      AsksFallback(prev, d, script) && Fails(script.fallback) && LostForGood(script.primary, script.fallback)
    case Thrown => Throws(prev, d, script)
    case Yielded(true) => IsInterrupted(prev, d, script)
    case Yielded(false) =>
      && !AsksReport(prev, d, script)
      && ((AsksPrimary(prev, d, script) && Goes(script.primary)) || (AsksFallback(prev, d, script) && Goes(script.fallback)))
  }

  lemma JudgedExactly(call: ModelCall)
    ensures Judged(call).Completed? <==> Stops(call, Text.Trim(if call.end.Raised? then "" else call.end.text))
    ensures Judged(call).Completed? ==> Stops(call, Judged(call).text)
    ensures Judged(call).Lost? <==> Fails(call)
    ensures Judged(call).Unfinished? <==> Goes(call)
    ensures Judged(call).Aborted? <==> call.aborted
    ensures Fails(call) ==> (TransientLoss(Judged(call)) <==> MayRecover(call)) && (DeadLoss(Judged(call)) <==> Dies(call))
    ensures DeadLoss(Judged(call)) ==> Judged(call).fault.value.kind == call.end.fault.kind
  {
    if !call.end.Raised? {
      Text.TrimKeepsText(call.end.text);
    } else {
      Text.TrimKeepsText("");
    }
  }

  lemma JudgedSummaryExactly(call: ModelCall)
    ensures JudgedSummary(call).Completed? ==> Writes(call, JudgedSummary(call).text)
    ensures JudgedSummary(call).Lost? <==> WritesNothing(call)
    ensures !JudgedSummary(call).Unfinished?
    ensures JudgedSummary(call).Aborted? <==> call.aborted
    ensures WritesNothing(call) ==>
      (TransientLoss(JudgedSummary(call)) <==> MayRecover(call)) && (DeadLoss(JudgedSummary(call)) <==> Dies(call))
    ensures DeadLoss(JudgedSummary(call)) ==> JudgedSummary(call).fault.value.kind == call.end.fault.kind
  {
    if !call.end.Raised? {
      Text.TrimKeepsText(call.end.text);
    }
  }

  /** The outcome of a chunk that asks for a report. */
  lemma SummaryComesTo(prev: Option<State>, d: Deps, script: Script, s: State, saved: seq<State>)
    requires AsksReport(prev, d, script)
    ensures ComesTo(prev, d, script, Summarized(s, script, saved).outcome)
  {
    hide JudgedSummary, AsksReport;
    JudgedSummaryExactly(script.summary);
    JudgedSummaryExactly(script.secondSummary);
  }

  lemma CalledTurns(s: State, d: Deps, call: ModelCall)
    ensures Called(s, d, call).turns == s.turns + |call.steps| && Called(s, d, call).startedAt == s.startedAt
  {
    hide Transcript.Trim;
    WalkedTurns(s.(llmCalls := s.llmCalls + 1), d, call.steps);
    WalkedKeeps(s.(llmCalls := s.llmCalls + 1), d, call.steps);
  }

  lemma {:induction false} WalkedKeeps(s: State, d: Deps, steps: seq<seq<Transcript.Message>>)
    ensures Walked(s, d, steps).startedAt == s.startedAt && Walked(s, d, steps).llmCalls == s.llmCalls
    decreases steps
  {
    if steps != [] {
      WalkedKeeps(s, d, steps[..|steps| - 1]);
    }
  }

  lemma FallbackComesTo(prev: Option<State>, d: Deps, script: Script, s: State, saved: seq<State>)
    requires AsksFallback(prev, d, script)
    requires s.turns == TurnsOf(prev) + |script.primary.steps| && s.startedAt == StartOf(prev, script)
    ensures ComesTo(prev, d, script, FallenBack(s, d, Judged(script.primary), script, saved).outcome)
  {
    hide Judged, Called, SavedBy, Summarized;
    JudgedExactly(script.primary);
    JudgedExactly(script.fallback);
    CalledTurns(s, d, script.fallback);
    if AsksReport(prev, d, script) {
      SummaryComesTo(prev, d, script, Called(s, d, script.fallback), saved + SavedBy(s, d, script.fallback));
    }
  }

  lemma WorkComesTo(prev: Option<State>, d: Deps, script: Script, s: State)
    requires AsksPrimary(prev, d, script)
    requires s.turns == TurnsOf(prev) && s.startedAt == StartOf(prev, script)
    ensures ComesTo(prev, d, script, Worked(s, d, script).outcome)
  {
    hide Judged, Called, SavedBy, Summarized, FallenBack;
    JudgedExactly(script.primary);
    CalledTurns(s, d, script.primary);
    if AsksFallback(prev, d, script) {
      FallbackComesTo(prev, d, script, Called(s, d, script.primary), SavedBy(s, d, script.primary));
    } else if AsksReport(prev, d, script) {
      SummaryComesTo(prev, d, script, Called(s, d, script.primary), SavedBy(s, d, script.primary));
    }
  }

  /** The part of a result that the report calls decide. */
  ghost predicate ReportSays(first: ModelCall, second: ModelCall, o: Outcome) {
    var again := WritesNothing(first) && !Dies(first);
    match o
    case Terminal(Reported(text)) =>
      || Writes(first, text) || (again && Writes(second, text))
      || (again && WritesNothing(second) && LostForGood(first, second) && text == NOTICE)
    case Terminal(Blocked(kind)) => !first.aborted && Dies(first) && kind == first.end.fault.kind
    case Terminal(Exhausted) => false
    case Thrown => again && WritesNothing(second) && !LostForGood(first, second)
    case Yielded(interrupted) => interrupted && (first.aborted || (again && second.aborted))
  }

  /** The part that the work calls decide, where no report is asked for. */
  ghost predicate WorkSays(first: ModelCall, second: ModelCall, o: Outcome) {
    var again := Fails(first) && !Dies(first);
    match o
    case Terminal(Reported(text)) => Stops(first, text) || (again && Stops(second, text))
    case Terminal(Blocked(kind)) => !first.aborted && Dies(first) && kind == first.end.fault.kind
    case Terminal(Exhausted) => again && Fails(second) && LostForGood(first, second)
    case Thrown => again && Fails(second) && !LostForGood(first, second)
    case Yielded(true) => first.aborted || (again && second.aborted)
    case Yielded(false) => Goes(first) || (again && Goes(second))
  }

  lemma ReportsSayOne(first: ModelCall, second: ModelCall, o: Outcome, p: Outcome)
    requires ReportSays(first, second, o) && ReportSays(first, second, p)
    ensures o == p
  {
    SilenceIsEmpty(first);
    SilenceIsEmpty(second);
    hide LostForGood;
    match o
    case Terminal(Reported(_)) =>
    case Terminal(Blocked(_)) =>
    case Thrown =>
    case Yielded(_) =>
    case _ =>
  }

  lemma WorkSaysOne(first: ModelCall, second: ModelCall, o: Outcome, p: Outcome)
    requires WorkSays(first, second, o) && WorkSays(first, second, p)
    ensures o == p
  {
    SilenceIsEmpty(first);
    SilenceIsEmpty(second);
  }

  lemma ResultIsOfItsPart(prev: Option<State>, d: Deps, script: Script, o: Outcome)
    requires ComesTo(prev, d, script, o)
    ensures AsksReport(prev, d, script) ==> ReportSays(script.summary, script.secondSummary, o)
    ensures !AsksReport(prev, d, script) && AsksPrimary(prev, d, script) ==> WorkSays(script.primary, script.fallback, o)
    ensures script.abortedFirst ==> o == Yielded(true)
  {
    hide Over, Stops, Writes, WritesNothing, LostForGood;
    Distinct(script.primary);
    Distinct(script.fallback);
  }

  lemma Distinct(call: ModelCall)
    ensures Goes(call) ==> !call.aborted && !Fails(call) && !Dies(call) && forall text :: !Stops(call, text)
    ensures Fails(call) ==> !call.aborted && forall text :: !Stops(call, text)
    ensures Dies(call) && !call.aborted ==> Fails(call)
  {
    SilenceIsEmpty(call);
  }

  /** No two results can both be told of the same calls. */
  lemma OnlyOneResult(prev: Option<State>, d: Deps, script: Script, o: Outcome, p: Outcome)
    requires ComesTo(prev, d, script, o) && ComesTo(prev, d, script, p)
    ensures o == p
  {
    hide ComesTo, WorkSays, ReportSays, Over;
    ResultIsOfItsPart(prev, d, script, o);
    ResultIsOfItsPart(prev, d, script, p);
    if AsksReport(prev, d, script) {
      ReportsSayOne(script.summary, script.secondSummary, o, p);
    } else if AsksPrimary(prev, d, script) {
      WorkSaysOne(script.primary, script.fallback, o, p);
    }
  }

  lemma SilenceIsEmpty(call: ModelCall)
    ensures !call.end.Raised? && Text.Blank(call.end.text) ==> Text.Trim(call.end.text) == ""
  {
    if !call.end.Raised? {
      Text.TrimKeepsText(call.end.text);
    }
  }

  /**
   * What a chunk reports is the text of the model that stopped, primary or fallback,
   * or of the first report call that wrote any, and the notice exactly when both
   * report calls were lost for good. It is blocked by a dead credential of the first
   * call of a kind, exhausted by two losses for good, thrown for a loss that may
   * recover, and yielded for an interruption or for more work: each exactly then.
   */
  lemma ResultExactly(prev: Option<State>, d: Deps, script: Script, o: Outcome)
    ensures Chunk(prev, d, script).outcome == o <==> ComesTo(prev, d, script, o)
  {
    ChunkComesTo(prev, d, script);
    if ComesTo(prev, d, script, o) {
      OnlyOneResult(prev, d, script, o, Chunk(prev, d, script).outcome);
    }
  }

  lemma ChunkComesTo(prev: Option<State>, d: Deps, script: Script)
    ensures ComesTo(prev, d, script, Chunk(prev, d, script).outcome)
  {
    hide Summarized, Worked;
    var s := Fresh(prev, d, script.starts);
    if AsksPrimary(prev, d, script) {
      WorkComesTo(prev, d, script, s);
    } else if !script.abortedFirst {
      SummaryComesTo(prev, d, script, s, []);
    }
  }

  // ---- what a chunk leaves behind ------------------------------------------------------------------------

  /** The turns that were taken: the primary's and the fallback's, as far as they were asked. */
  function Taken(prev: Option<State>, d: Deps, script: Script): seq<seq<Transcript.Message>> {
    (if AsksPrimary(prev, d, script) then script.primary.steps else [])
    + (if AsksFallback(prev, d, script) then script.fallback.steps else [])
  }

  function CallsOf(prev: Option<State>): nat {
    if prev.Some? then prev.value.llmCalls else 0
  }

  function One(b: bool): nat {
    if b then 1 else 0
  }

  /** The state's context is what the run's turns so far leave. */
  ghost predicate Carries(s: State, d: Deps, steps: seq<seq<Transcript.Message>>) {
    s.messages == Transcript.Carried(d.seed, steps, d.window, d.keep)
  }

  ghost predicate CheckpointsCarry(saved: seq<State>, d: Deps, before: seq<seq<Transcript.Message>>, steps: seq<seq<Transcript.Message>>) {
    |saved| == |steps| && forall i :: 0 <= i < |saved| ==> Carries(saved[i], d, before + steps[..i + 1])
  }

  lemma OneMoreCarries(s: State, d: Deps, steps: seq<seq<Transcript.Message>>, step: seq<Transcript.Message>)
    requires Carries(s, d, steps)
    ensures Carries(Stepped(s, d, step), d, steps + [step])
  {
    hide Transcript.Trim;
    assert (steps + [step])[..|steps|] == steps;
  }

  lemma OneMoreCheckpoint(saved: seq<State>, s: State, d: Deps, before: seq<seq<Transcript.Message>>,
                          steps: seq<seq<Transcript.Message>>, step: seq<Transcript.Message>)
    requires CheckpointsCarry(saved, d, before, steps) && Carries(s, d, before + steps + [step])
    ensures CheckpointsCarry(saved + [s], d, before, steps + [step])
  {
    hide Carries;
    forall i | 0 <= i < |saved + [s]|
      ensures Carries((saved + [s])[i], d, before + (steps + [step])[..i + 1])
    {
      if i < |saved| {
        assert (steps + [step])[..i + 1] == steps[..i + 1];
      } else {
        assert before + (steps + [step])[..i + 1] == before + steps + [step];
      }
    }
  }

  lemma {:induction false} WalkedCarries(s: State, d: Deps, before: seq<seq<Transcript.Message>>, steps: seq<seq<Transcript.Message>>)
    requires Carries(s, d, before)
    ensures Carries(Walked(s, d, steps), d, before + steps)
    ensures CheckpointsCarry(Checkpoints(s, d, steps), d, before, steps)
    decreases steps
  {
    hide Carries, Stepped;
    if steps == [] {
      assert before + steps == before;
    } else {
      var rest, last := steps[..|steps| - 1], steps[|steps| - 1];
      WalkedCarries(s, d, before, rest);
      OneMoreCarries(Walked(s, d, rest), d, before + rest, last);
      assert before + rest + [last] == before + steps && rest + [last] == steps;
      assert Walked(s, d, steps) == Stepped(Walked(s, d, rest), d, last);
      assert Checkpoints(s, d, steps) == Checkpoints(s, d, rest) + [Walked(s, d, steps)];
      hide Walked, Checkpoints, CheckpointsCarry;
      OneMoreCheckpoint(Checkpoints(s, d, rest), Walked(s, d, steps), d, before, rest, last);
    }
  }

  lemma CallCarries(s: State, d: Deps, call: ModelCall, before: seq<seq<Transcript.Message>>)
    requires Carries(s, d, before)
    ensures Carries(Called(s, d, call), d, before + call.steps)
    ensures CheckpointsCarry(SavedBy(s, d, call), d, before, call.steps)
    ensures Called(s, d, call).llmCalls == s.llmCalls + 1
  {
    hide Carries, Walked, Checkpoints, CheckpointsCarry;
    var called := s.(llmCalls := s.llmCalls + 1);
    CountingCarries(s, d, before, s.llmCalls + 1);
    WalkedCarries(called, d, before, call.steps);
    WalkedKeeps(called, d, call.steps);
  }

  lemma CountingCarries(s: State, d: Deps, steps: seq<seq<Transcript.Message>>, calls: nat)
    requires Carries(s, d, steps)
    ensures Carries(s.(llmCalls := calls), d, steps)
  {
    hide Transcript.Carried;
  }

  lemma TwoCallsCarry(a: seq<State>, b: seq<State>, d: Deps, before: seq<seq<Transcript.Message>>,
                      first: seq<seq<Transcript.Message>>, second: seq<seq<Transcript.Message>>)
    requires CheckpointsCarry(a, d, before, first) && CheckpointsCarry(b, d, before + first, second)
    ensures CheckpointsCarry(a + b, d, before, first + second)
  {
    hide Carries;
    forall i | 0 <= i < |a + b|
      ensures Carries((a + b)[i], d, before + (first + second)[..i + 1])
    {
      if i < |a| {
        assert (first + second)[..i + 1] == first[..i + 1];
      } else {
        assert before + (first + second)[..i + 1] == before + first + second[..i - |a| + 1];
      }
    }
  }

  /** What any chunk does to the run's state, whatever it comes to. */
  ghost predicate Leaves(prev: Option<State>, d: Deps, script: Script, r: ChunkRun, before: seq<seq<Transcript.Message>>) {
    && Carries(r.state, d, before + Taken(prev, d, script))
    && CheckpointsCarry(r.saved, d, before, Taken(prev, d, script))
    && r.state.turns == TurnsOf(prev) + |Taken(prev, d, script)|
    && r.state.startedAt == StartOf(prev, script)
    && r.state.llmCalls == CallsOf(prev)
         + One(AsksPrimary(prev, d, script)) + One(AsksFallback(prev, d, script))
         + One(AsksReport(prev, d, script)) + One(AsksReportAgain(prev, d, script))
  }

  /** The part of it that a report call does not touch. */
  ghost predicate Stands(prev: Option<State>, d: Deps, script: Script, s: State, saved: seq<State>, before: seq<seq<Transcript.Message>>) {
    && Carries(s, d, before + Taken(prev, d, script))
    && CheckpointsCarry(saved, d, before, Taken(prev, d, script))
    && s.turns == TurnsOf(prev) + |Taken(prev, d, script)|
    && s.startedAt == StartOf(prev, script)
    && s.llmCalls == CallsOf(prev) + One(AsksPrimary(prev, d, script)) + One(AsksFallback(prev, d, script))
  }

  lemma ReportCallKeeps(prev: Option<State>, d: Deps, script: Script, s: State, saved: seq<State>, before: seq<seq<Transcript.Message>>,
                        r: ChunkRun, calls: nat)
    requires Stands(prev, d, script, s, saved, before)
    requires r.state == s.(llmCalls := s.llmCalls + calls) && r.saved == saved
    requires calls == One(AsksReport(prev, d, script)) + One(AsksReportAgain(prev, d, script))
    ensures Leaves(prev, d, script, r, before)
  {
    hide Transcript.Carried, CheckpointsCarry, AsksPrimary, AsksFallback, AsksReport, AsksReportAgain, Taken;
  }

  lemma SummaryLeaves(prev: Option<State>, d: Deps, script: Script, s: State, saved: seq<State>, before: seq<seq<Transcript.Message>>)
    requires AsksReport(prev, d, script) && Stands(prev, d, script, s, saved, before)
    ensures Leaves(prev, d, script, Summarized(s, script, saved), before)
  {
    hide JudgedSummary, AsksReport, Stands, Leaves;
    JudgedSummaryExactly(script.summary);
    JudgedSummaryExactly(script.secondSummary);
    ReportCallKeeps(prev, d, script, s, saved, before, Summarized(s, script, saved), 1 + One(AsksReportAgain(prev, d, script)));
  }

  lemma FallbackLeaves(prev: Option<State>, d: Deps, script: Script, s: State, saved: seq<State>, before: seq<seq<Transcript.Message>>)
    requires AsksFallback(prev, d, script)
    requires s.turns == TurnsOf(prev) + |script.primary.steps| && s.startedAt == StartOf(prev, script)
    requires s.llmCalls == CallsOf(prev) + 1
    requires Carries(s, d, before + script.primary.steps) && CheckpointsCarry(saved, d, before, script.primary.steps)
    ensures Leaves(prev, d, script, FallenBack(s, d, Judged(script.primary), script, saved), before)
  {
    hide Judged, Called, SavedBy, Summarized, Carries, CheckpointsCarry;
    JudgedExactly(script.fallback);
    CalledTurns(s, d, script.fallback);
    CallCarries(s, d, script.fallback, before + script.primary.steps);
    TwoCallsCarry(saved, SavedBy(s, d, script.fallback), d, before, script.primary.steps, script.fallback.steps);
    assert before + script.primary.steps + script.fallback.steps == before + Taken(prev, d, script);
    if AsksReport(prev, d, script) {
      SummaryLeaves(prev, d, script, Called(s, d, script.fallback), saved + SavedBy(s, d, script.fallback), before);
    }
  }

  lemma WorkLeaves(prev: Option<State>, d: Deps, script: Script, s: State, before: seq<seq<Transcript.Message>>)
    requires AsksPrimary(prev, d, script) && s == Fresh(prev, d, script.starts) && Carries(s, d, before)
    ensures Leaves(prev, d, script, Worked(s, d, script), before)
  {
    hide Judged, Called, SavedBy, Summarized, Carries, CheckpointsCarry, FallenBack;
    JudgedExactly(script.primary);
    CalledTurns(s, d, script.primary);
    CallCarries(s, d, script.primary, before);
    if AsksFallback(prev, d, script) {
      FallbackLeaves(prev, d, script, Called(s, d, script.primary), SavedBy(s, d, script.primary), before);
    } else {
      assert Taken(prev, d, script) == script.primary.steps;
      if AsksReport(prev, d, script) {
        SummaryLeaves(prev, d, script, Called(s, d, script.primary), SavedBy(s, d, script.primary), before);
      }
    }
  }

  /**
   * A chunk charges the turns its work calls took and no more, counts every call,
   * keeps the run's start, and checkpoints the run's transcript after each turn.
   */
  lemma ChunkLeaves(prev: Option<State>, d: Deps, script: Script, before: seq<seq<Transcript.Message>>)
    requires if prev.Some? then Carries(prev.value, d, before) else before == []
    ensures Leaves(prev, d, script, Chunk(prev, d, script), before)
  {
    var s := Fresh(prev, d, script.starts);
    assert Carries(s, d, before);
    hide Summarized, Worked, Carries;
    if AsksPrimary(prev, d, script) {
      WorkLeaves(prev, d, script, s, before);
    } else {
      assert Taken(prev, d, script) == [] && before + [] == before;
      if !script.abortedFirst {
        SummaryLeaves(prev, d, script, s, [], before);
      }
    }
  }

  /** A run's state behind some chunks, and all the turns they took. */
  function Resumed(d: Deps, scripts: seq<Script>): Option<State>
    decreases scripts
  {
    if scripts == [] then None else Some(Chunk(Resumed(d, scripts[..|scripts| - 1]), d, scripts[|scripts| - 1]).state)
  }

  function AllTaken(d: Deps, scripts: seq<Script>): seq<seq<Transcript.Message>>
    decreases scripts
  {
    if scripts == [] then []
    else
      var n := |scripts| - 1;
      AllTaken(d, scripts[..n]) + Taken(Resumed(d, scripts[..n]), d, scripts[n])
  }

  lemma {:induction false} ResumedCarries(d: Deps, scripts: seq<Script>)
    requires scripts != []
    ensures Carries(Resumed(d, scripts).value, d, AllTaken(d, scripts))
    ensures Resumed(d, scripts).value.turns == |AllTaken(d, scripts)|
    ensures Resumed(d, scripts).value.startedAt == scripts[0].starts
    decreases scripts
  {
    hide Chunk, Carries, Taken;
    var n := |scripts| - 1;
    if n > 0 {
      ResumedCarries(d, scripts[..n]);
    }
    ChunkLeaves(Resumed(d, scripts[..n]), d, scripts[n], AllTaken(d, scripts[..n]));
  }

  /**
   * Through any chunks the model's context is the whole run's transcript, trimmed
   * once; its turns are all that were taken, and its clock started with the first.
   */
  lemma ContextIsTheTrimmedTranscript(d: Deps, scripts: seq<Script>)
    requires d.window >= 1 && !d.seed.Tool? && scripts != []
    ensures
      var s := Resumed(d, scripts).value;
      && s.messages == Transcript.Trim(Transcript.Whole(d.seed, AllTaken(d, scripts)), d.window, d.keep)
      && s.turns == |AllTaken(d, scripts)| && s.startedAt == scripts[0].starts
  {
    hide Transcript.Trim, Transcript.Carried, Transcript.Whole, AllTaken, Resumed;
    ResumedCarries(d, scripts);
    Transcript.CarriedIsTheWholeTrimmed(d.seed, AllTaken(d, scripts), d.window, d.keep);
  }

  // ---- a whole run in memory --------------------------------------------------------------------------------

  datatype RunEnd = Finished(result: Result) | Threw | GaveUp

  type World = (nat, Option<State>) -> Script

  /** Nothing interrupts a run in memory, and each chunk meets a legal script. */
  ghost predicate Uninterrupted(d: Deps, w: World) {
    forall chunk, prev ::
      && Legal(prev, d, w(chunk, prev)) && !w(chunk, prev).abortedFirst
      && !w(chunk, prev).primary.aborted && !w(chunk, prev).fallback.aborted
      && !w(chunk, prev).summary.aborted && !w(chunk, prev).secondSummary.aborted
  }

  lemma NeverInterrupted(prev: Option<State>, d: Deps, script: Script)
    requires !script.abortedFirst && !script.primary.aborted && !script.fallback.aborted
    requires !script.summary.aborted && !script.secondSummary.aborted
    ensures Chunk(prev, d, script).outcome != Yielded(true)
  {
    hide Called, SavedBy;
  }

  /** The runner's own give-up branch is never reached: the run ends within its turns, counted in chunks. */
  method RunRecipeExecution(d: Deps, w: World) returns (end: RunEnd, chunks: nat)
    requires Uninterrupted(d, w)
    ensures !end.GaveUp?
    ensures 1 <= chunks <= Budget.Max(1, d.maxTurns)
  {
    hide Chunk, Legal, Climbs;
    var state: Option<State> := None;
    for chunk := 0 to d.maxTurns + 2
      invariant chunk <= TurnsOf(state) <= d.maxTurns && (chunk > 0 ==> TurnsOf(state) < d.maxTurns)
    {
      ChunkAdvances(state, d, w(chunk, state));
      NeverInterrupted(state, d, w(chunk, state));
      var r := RunResumableChunk(state, d, w(chunk, state));
      chunks := chunk + 1;
      match r.outcome {
        case Terminal(result) => return Finished(result), chunks;
        case Thrown => return Threw, chunks;
        case Yielded(_) => state := Some(r.state);
      }
    }
    assert false;
    end := GaveUp;
  }
}
