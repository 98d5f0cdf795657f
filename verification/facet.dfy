/**
 * The managed child of a subtask: a terminal slot and a checkpoint slot, each bound
 * to the request it was first written for.
 */
module Facet {
  import opened Wrappers
  import Runner
  import Transcript

  /** `flaw`: what makes the request unusable without a model call. */
  datatype Request = Request(fingerprint: string, flaw: Option<string>, deps: Runner.Deps)

  datatype Result = Ran(result: Runner.Result) | Refused(flaw: string)

  datatype Cached = Cached(fingerprint: string, result: Result)

  datatype Saved = Saved(fingerprint: string, state: Runner.State)

  /** The child's two rows. */
  datatype Child = Child(cache: Option<Cached>, run: Option<Saved>)

  /** A call, with what its chunk meets; a crash leaves only the checkpoints before it. */
  datatype Call = Call(request: Request, script: Runner.Script, crash: Option<nat>)

  datatype Answer = Replayed(result: Result) | Done(result: Result) | Yielded(interrupted: bool) | Mismatch | Threw | Died

  datatype Executed = Executed(child: Child, answer: Answer)

  function Checkpointed(c: Child, fingerprint: string, saved: seq<Runner.State>): Child {
    if saved == [] then c else c.(run := Some(Saved(fingerprint, saved[|saved| - 1])))
  }

  function Prev(c: Child): Option<Runner.State> {
    if c.run.Some? then Some(c.run.value.state) else None
  }

  function Execute(c: Child, call: Call): Executed {
    var fp := call.request.fingerprint;
    if c.cache.Some? then
      Executed(c, if c.cache.value.fingerprint == fp then Replayed(c.cache.value.result) else Mismatch)
    else if call.request.flaw.Some? then
      if call.crash.Some? then Executed(c, Died)
      else Executed(c.(cache := Some(Cached(fp, Refused(call.request.flaw.value)))), Done(Refused(call.request.flaw.value)))
    else if c.run.Some? && c.run.value.fingerprint != fp then Executed(c, Mismatch)
    else
      var r := Runner.Chunk(Prev(c), call.request.deps, call.script);
      if call.crash.Some? then
        Executed(Checkpointed(c, fp, if call.crash.value < |r.saved| then r.saved[..call.crash.value] else r.saved), Died)
      else
        match r.outcome
        case Thrown => Executed(Checkpointed(c, fp, r.saved), Threw)
        case Yielded(interrupted) => Executed(c.(run := Some(Saved(fp, r.state))), Yielded(interrupted))
        case Terminal(result) => Executed(Child(Some(Cached(fp, Ran(result))), Some(Saved(fp, r.state))), Done(Ran(result)))
  }

  // ---- the child as the source keeps it ---------------------------------------------------------

  class SubagentFacet {
    var cache: Option<Cached>
    var run: Option<Saved>

    constructor ()
      ensures View() == Child(None, None)
    {
      cache, run := None, None;
    }

    function View(): Child
      reads this
    {
      Child(cache, run)
    }

    method CacheTerminal(fingerprint: string, result: Result)
      modifies this`cache
      ensures cache == Some(Cached(fingerprint, result))
    {
      cache := Some(Cached(fingerprint, result));
    }

    method SaveRunState(fingerprint: string, state: Runner.State)
      modifies this`run
      ensures run == Some(Saved(fingerprint, state))
    {
      run := Some(Saved(fingerprint, state));
    }

    method ExecuteChunk(call: Call) returns (answer: Answer)
      modifies this
      ensures Executed(View(), answer) == Execute(old(View()), call)
    {
      var fp := call.request.fingerprint;
      if cache.Some? {
        return if cache.value.fingerprint == fp then Replayed(cache.value.result) else Mismatch;
      }
      if call.request.flaw.Some? {
        if call.crash.Some? {
          return Died;
        }
        CacheTerminal(fp, Refused(call.request.flaw.value));
        return Done(Refused(call.request.flaw.value));
      }
      if run.Some? && run.value.fingerprint != fp {
        return Mismatch;
      }
      var prev := if run.Some? then Some(run.value.state) else None;
      var r := Runner.RunResumableChunk(prev, call.request.deps, call.script);
      var survived := if call.crash.Some? && call.crash.value < |r.saved| then call.crash.value else |r.saved|;
      ghost var before := View();
      for i := 0 to survived
        invariant View() == Checkpointed(before, fp, r.saved[..i])
      {
        SaveRunState(fp, r.saved[i]);
      }
      if call.crash.Some? {
        assert r.saved[..|r.saved|] == r.saved;
        return Died;
      }
      assert r.saved[..survived] == r.saved;
      if r.outcome.Thrown? {
        return Threw;
      }
      SaveRunState(fp, r.state);
      match r.outcome
      case Yielded(interrupted) => return Yielded(interrupted);
      case Terminal(result) =>
        CacheTerminal(fp, Ran(result));
        return Done(Ran(result));
    }
  }

  // ---- what any sequence of calls keeps -------------------------------------------------------------

  /** The turn budget a fingerprint stands for: the recipe's limits are part of what is fingerprinted. */
  type Limits = string -> nat

  ghost predicate Proper(call: Call, limits: Limits, c: Child) {
    && call.request.deps.maxTurns == limits(call.request.fingerprint)
    && Runner.Legal(Prev(c), call.request.deps, call.script)
  }

  ghost predicate Ok(c: Child, limits: Limits) {
    c.run.Some? ==> c.run.value.state.turns <= limits(c.run.value.fingerprint) + 1
  }

  function Turns(c: Child): nat {
    Runner.TurnsOf(Prev(c))
  }

  /** Between two states of the child: nothing settled is lost, and nothing started is traded for something else. */
  ghost predicate Keeps(c: Child, d: Child) {
    && (c.cache.Some? ==> d == c)
    && (c.run.Some? ==> d.run.Some? && d.run.value.fingerprint == c.run.value.fingerprint)
    && Turns(c) <= Turns(d)
  }

  /** What one call does, by its answer. */
  ghost predicate AnswersRightly(c: Child, call: Call, d: Child, a: Answer) {
    match a
    case Replayed(result) => d == c && c.cache == Some(Cached(call.request.fingerprint, result))
    case Done(result) => c.cache.None? && d.cache == Some(Cached(call.request.fingerprint, result))
    case Yielded(interrupted) =>
      c.cache.None? && d.cache.None?
      && (!interrupted ==> d.run.Some? && Turns(c) < Turns(d) < call.request.deps.maxTurns)
    case Mismatch =>
      d == c
      && ((c.cache.Some? && c.cache.value.fingerprint != call.request.fingerprint)
          || (c.run.Some? && c.run.value.fingerprint != call.request.fingerprint))
    case _ => d.cache == c.cache
  }

  lemma CallKeeps(c: Child, call: Call, limits: Limits)
    requires Ok(c, limits) && Proper(call, limits, c)
    ensures
      var e := Execute(c, call);
      Ok(e.child, limits) && Keeps(c, e.child) && AnswersRightly(c, call, e.child, e.answer)
  {
    hide Runner.Chunk, Runner.Legal;
    if c.run.None? || c.run.value.fingerprint == call.request.fingerprint {
      Runner.ChunkAdvances(Prev(c), call.request.deps, call.script);
    }
  }

  /** A call after the terminal result is answered from the slot, whatever a model would have done. */
  lemma TerminalNeedsNoModel(c: Child, call: Call, script: Runner.Script)
    requires c.cache.Some?
    ensures Execute(c, call) == Execute(c, call.(script := script))
    ensures
      var same := c.cache.value.fingerprint == call.request.fingerprint;
      Execute(c, call) == Executed(c, if same then Replayed(c.cache.value.result) else Mismatch)
  {}

  function After(c: Child, calls: seq<Call>): Child
    decreases calls
  {
    if calls == [] then c else Execute(After(c, calls[..|calls| - 1]), calls[|calls| - 1]).child
  }

  function Answers(c: Child, calls: seq<Call>): seq<Answer>
    decreases calls
  {
    if calls == [] then []
    else Answers(c, calls[..|calls| - 1]) + [Execute(After(c, calls[..|calls| - 1]), calls[|calls| - 1]).answer]
  }

  ghost predicate AllProper(c: Child, calls: seq<Call>, limits: Limits)
    decreases calls
  {
    calls == []
    || (AllProper(c, calls[..|calls| - 1], limits) && Proper(calls[|calls| - 1], limits, After(c, calls[..|calls| - 1])))
  }

  function Yields(answers: seq<Answer>): nat
    decreases answers
  {
    if answers == [] then 0
    else Yields(answers[..|answers| - 1]) + (if answers[|answers| - 1] == Yielded(false) then 1 else 0)
  }

  /** Through any calls and crashes the slots keep what they hold and the turns never fall. */
  lemma {:induction false} RunsKeep(c: Child, calls: seq<Call>, limits: Limits)
    requires Ok(c, limits) && AllProper(c, calls, limits)
    ensures Ok(After(c, calls), limits) && Keeps(c, After(c, calls))
    decreases calls
  {
    if calls != [] {
      hide Execute, Proper;
      var n := |calls| - 1;
      RunsKeep(c, calls[..n], limits);
      CallKeeps(After(c, calls[..n]), calls[n], limits);
    }
  }

  /** Once there is a terminal result every later call is answered by it, or refused. */
  lemma {:induction false} TerminalIsForGood(c: Child, calls: seq<Call>, i: nat)
    requires c.cache.Some? && i < |calls|
    ensures After(c, calls) == c
    ensures |Answers(c, calls)| == |calls|
    ensures Answers(c, calls)[i] ==
      if c.cache.value.fingerprint == calls[i].request.fingerprint then Replayed(c.cache.value.result) else Mismatch
    decreases calls
  {
    var n := |calls| - 1;
    if n > 0 {
      TerminalIsForGood(c, calls[..n], if i < n then i else 0);
    }
    TerminalNeedsNoModel(c, calls[n], calls[n].script);
  }

  /**
   * However often its calls crash and are repeated, a child yields for more work
   * fewer times than it has turns.
   */
  lemma {:induction false} YieldsAreBounded(calls: seq<Call>, limits: Limits)
    requires AllProper(Child(None, None), calls, limits)
    ensures
      var c, count := After(Child(None, None), calls), Yields(Answers(Child(None, None), calls));
      && count <= Turns(c)
      && (count > 0 ==> c.run.Some? && count < limits(c.run.value.fingerprint))
    decreases calls
  {
    if calls != [] {
      hide Execute, Proper;
      var n, blank := |calls| - 1, Child(None, None);
      YieldsAreBounded(calls[..n], limits);
      RunsKeep(blank, calls[..n], limits);
      CallKeeps(After(blank, calls[..n]), calls[n], limits);
      ProperTurns(calls[n], limits, After(blank, calls[..n]));
      YieldKeepsFingerprint(After(blank, calls[..n]), calls[n]);
      var answers := Answers(blank, calls);
      assert answers[..|answers| - 1] == Answers(blank, calls[..n]);
    }
  }

  lemma ProperTurns(call: Call, limits: Limits, c: Child)
    requires Proper(call, limits, c)
    ensures call.request.deps.maxTurns == limits(call.request.fingerprint)
  {}

  lemma YieldKeepsFingerprint(c: Child, call: Call)
    ensures Execute(c, call).answer.Yielded? ==>
      Execute(c, call).child.run.Some? && Execute(c, call).child.run.value.fingerprint == call.request.fingerprint
  {
    hide Runner.Chunk;
  }

  /** Nothing a child holds is of another request. */
  predicate Holds(c: Child, fp: string) {
    (c.cache.Some? ==> c.cache.value.fingerprint == fp) && (c.run.Some? ==> c.run.value.fingerprint == fp)
  }

  lemma SameRequestKeeps(c: Child, call: Call, fp: string)
    requires Holds(c, fp) && call.request.fingerprint == fp
    ensures Holds(Execute(c, call).child, fp) && !Execute(c, call).answer.Mismatch?
  {
    hide Runner.Chunk;
  }

  /** A child that is only ever sent one request holds nothing else, so it never answers with a mismatch. */
  lemma {:induction false} OneRequestNeverMismatches(calls: seq<Call>, fp: string)
    requires forall i :: 0 <= i < |calls| ==> calls[i].request.fingerprint == fp
    ensures Holds(After(Child(None, None), calls), fp)
    ensures Mismatch !in Answers(Child(None, None), calls)
    decreases calls
  {
    if calls != [] {
      hide Execute, Holds;
      var n := |calls| - 1;
      assert calls[n].request.fingerprint == fp;
      OneRequestNeverMismatches(calls[..n], fp);
      SameRequestKeeps(After(Child(None, None), calls[..n]), calls[n], fp);
    }
  }

  // ---- what the slots hold ------------------------------------------------------------------------------

  /** Nothing stands in the way of running: no terminal result, no flaw, no other request's checkpoint. */
  predicate MayRun(c: Child, call: Call) {
    && c.cache.None? && call.request.flaw.None?
    && (c.run.Some? ==> c.run.value.fingerprint == call.request.fingerprint)
  }

  /** What the calls of a chunk come to is what the child answers, and what its slots then hold. */
  lemma RunsAreAnswered(c: Child, call: Call)
    requires MayRun(c, call) && call.crash.None?
    ensures
      var e := Execute(c, call);
      && (forall result :: e.answer == Done(Ran(result)) <==>
            Runner.ComesTo(Prev(c), call.request.deps, call.script, Runner.Terminal(result)))
      && (forall interrupted :: e.answer == Yielded(interrupted) <==>
            Runner.ComesTo(Prev(c), call.request.deps, call.script, Runner.Yielded(interrupted)))
      && (e.answer == Threw <==> Runner.ComesTo(Prev(c), call.request.deps, call.script, Runner.Thrown))
      && (e.answer.Done? <==> e.child.cache.Some?)
      && (e.answer.Done? ==> e.child.cache == Some(Cached(call.request.fingerprint, e.answer.result)))
  {
    var e := Execute(c, call);
    hide Runner.Chunk, Runner.ComesTo;
    forall o
      ensures Runner.Chunk(Prev(c), call.request.deps, call.script).outcome == o <==>
        Runner.ComesTo(Prev(c), call.request.deps, call.script, o)
    {
      Runner.ResultExactly(Prev(c), call.request.deps, call.script, o);
    }
  }

  /** A chunk that is lost leaves the last checkpoint it wrote, or what was there when it wrote none. */
  lemma CrashesLeaveCheckpoints(c: Child, call: Call, before: seq<seq<Transcript.Message>>)
    requires MayRun(c, call) && call.crash.Some?
    requires if c.run.Some? then Runner.Carries(c.run.value.state, call.request.deps, before) else before == []
    ensures
      var e, taken := Execute(c, call), Runner.Taken(Prev(c), call.request.deps, call.script);
      var written := if call.crash.value < |taken| then call.crash.value else |taken|;
      && e.answer == Died && e.child.cache.None?
      && if written == 0 then e.child == c
         else
           && e.child.run.Some? && e.child.run.value.fingerprint == call.request.fingerprint
           && Runner.Carries(e.child.run.value.state, call.request.deps, before + taken[..written])
  {
    Runner.ChunkLeaves(Prev(c), call.request.deps, call.script, before);
    var taken := Runner.Taken(Prev(c), call.request.deps, call.script);
    assert taken[..|taken|] == taken;
    hide Runner.Chunk, Runner.Carries, Runner.Taken;
  }

  /** A chunk that returns leaves the run where its turns led; one that throws, at the last turn's checkpoint. */
  lemma ReturnsLeaveTheRun(c: Child, call: Call, before: seq<seq<Transcript.Message>>)
    requires MayRun(c, call) && call.crash.None?
    requires if c.run.Some? then Runner.Carries(c.run.value.state, call.request.deps, before) else before == []
    ensures
      var e, taken := Execute(c, call), Runner.Taken(Prev(c), call.request.deps, call.script);
      if e.answer.Threw? && taken == [] then e.child == c
      else
        && e.child.run.Some? && e.child.run.value.fingerprint == call.request.fingerprint
        && Runner.Carries(e.child.run.value.state, call.request.deps, before + taken)
        && (!e.answer.Threw? ==> e.child.run.value.state.turns == Turns(c) + |taken|)
  {
    Runner.ChunkLeaves(Prev(c), call.request.deps, call.script, before);
    var taken := Runner.Taken(Prev(c), call.request.deps, call.script);
    assert taken[..|taken|] == taken;
    hide Runner.Chunk, Runner.Carries, Runner.Taken;
  }

  /** The call among these that a child's terminal result came from. */
  ghost predicate CameFrom(c: Child, calls: seq<Call>, i: nat) {
    && i < |calls| && c.cache.Some?
    && var before, call := After(Child(None, None), calls[..i]), calls[i];
       && before.cache.None? && call.crash.None? && c.cache.value.fingerprint == call.request.fingerprint
       && match c.cache.value.result
          case Refused(flaw) => call.request.flaw == Some(flaw)
          case Ran(result) => MayRun(before, call) && Runner.ComesTo(Prev(before), call.request.deps, call.script, Runner.Terminal(result))
  }

  lemma LaterCameFrom(c: Child, calls: seq<Call>, call: Call, i: nat)
    requires CameFrom(c, calls, i)
    ensures CameFrom(c, calls + [call], i)
  {
    hide MayRun, Runner.ComesTo;
    assert (calls + [call])[..i] == calls[..i];
  }

  lemma FilledNow(c: Child, call: Call)
    requires c.cache.None? && Execute(c, call).child.cache.Some?
    ensures
      var cached := Execute(c, call).child.cache.value;
      && call.crash.None? && cached.fingerprint == call.request.fingerprint
      && match cached.result
         case Refused(flaw) => call.request.flaw == Some(flaw)
         case Ran(result) => MayRun(c, call) && Runner.ComesTo(Prev(c), call.request.deps, call.script, Runner.Terminal(result))
  {
    hide Runner.Chunk, Runner.ComesTo;
    if MayRun(c, call) && call.crash.None? {
      RunsAreAnswered(c, call);
    }
  }

  /**
   * Through any calls and crashes, a terminal result is of the request it is bound
   * to: the flaw that one of its calls found, or what the models of one of its
   * uncrashed chunks, resumed from the child's checkpoint, came to.
   */
  lemma {:induction false} ResultsComeFromRuns(calls: seq<Call>)
    requires After(Child(None, None), calls).cache.Some?
    ensures exists i :: CameFrom(After(Child(None, None), calls), calls, i)
    decreases calls
  {
    if calls != [] {
      hide Execute;
      var rest, last := calls[..|calls| - 1], calls[|calls| - 1];
      var before := After(Child(None, None), rest);
      assert rest + [last] == calls;
      if before.cache.Some? {
        ResultsComeFromRuns(rest);
        var i :| CameFrom(before, rest, i);
        TerminalNeedsNoModel(before, last, last.script);
        LaterCameFrom(before, rest, last, i);
      } else {
        FilledNow(before, last);
        assert calls[..|rest|] == rest;
        hide MayRun, Runner.ComesTo;
        assert CameFrom(After(Child(None, None), calls), calls, |rest|);
      }
    }
  }
}
