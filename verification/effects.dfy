/**
 * What the actions of a run come to: when a round's model is asked, what its turn
 * says, what a chunk leaves of its row, and what a cancellation settles.
 */
module Effects {
  import opened Wrappers
  import opened Workflow
  import opened Agent
  import opened Protocol
  import History
  import Origins
  import Safety
  import Subtasks
  import Tasks
  import Text
  import Traces

  ghost predicate HasRows(c: Config, s: Store, r: nat) {
    exists id :: id in s.subtasks.rows && s.subtasks.rows[id].taskId == c.taskId && s.subtasks.rows[id].round == r
  }

  lemma RowsAreListed(c: Config, s: Store, r: nat)
    ensures HasRows(c, s, r) <==> Rows(s, c.taskId, r) != {}
  {
    if id :| id in s.subtasks.rows && s.subtasks.rows[id].taskId == c.taskId && s.subtasks.rows[id].round == r {
      assert id in Rows(s, c.taskId, r);
    }
    if Rows(s, c.taskId, r) != {} {
      var id :| id in Rows(s, c.taskId, r);
    }
  }

  /** What the i-th action, a step's start or its next segment, makes of the step's body. */
  ghost predicate Comes(c: Config, w: World, actions: seq<Action>, i: nat, n: StepName, body: Body)
    requires i < |actions|
  {
    var v := Traces.Before(c, w, actions, i + 1);
    && ((actions[i].Start? && actions[i].call.name == n) || (actions[i].Continue? && actions[i].name == n))
    && n in v.bodies && v.bodies[n].body == body
  }

  ghost predicate Gives(seg: Segment, store: Store, body: Body) {
    seg.body == Some(body) && seg.store == store
  }

  /** A body that the i-th action makes is its segment's. */
  lemma ComesFrom(c: Config, w: World, actions: seq<Action>, i: nat, n: StepName, body: Body)
    requires Safety.Initial(c, w) && Safety.AllEnabled(c, w, actions) && i < |actions|
    requires Comes(c, w, actions, i, n, body)
    ensures
      var v, u := Traces.Before(c, w, actions, i), Traces.Before(c, w, actions, i + 1);
      && Inv(c, v)
      && (actions[i].Start? ==> actions[i].call in Calls(c, v.journal) && Gives(Opening(c, v.store, actions[i].call, actions[i].oracle), u.store, body))
      && (actions[i].Continue? ==> n in v.bodies && Gives(Onwards(c, v.store, n, v.bodies[n].body, actions[i].oracle), u.store, body))
  {
    Origins.StandsIn(c, w, actions, i);
    hide Safety.Initial, Safety.AllEnabled, Safety.After, Inv, Opening, Onwards, Calls, Legal, Origins.AllSourced;
  }

  lemma StartsThis(c: Config, w: World, actions: seq<Action>, i: nat, n: StepName, body: Body)
    requires i < |actions| && actions[i].Start? && Comes(c, w, actions, i, n, body)
    ensures actions[i].call.name == n
  {}

  // ---- a round's turn ----------------------------------------------------------------------------------

  /**
   * A turn that starts asks the model exactly when the Task is not canceled and has
   * neither an answer nor a row of the round; otherwise it is over at once, for
   * nothing, with what is there: a cancellation before an answer, an answer before rows.
   */
  lemma ModelIsAskedExactlyWhen(c: Config, w: World, actions: seq<Action>, i: nat, r: nat, body: Body)
    requires Safety.Initial(c, w) && Safety.AllEnabled(c, w, actions) && i < |actions|
    requires actions[i].Start? && Comes(c, w, actions, i, Turn(r), body)
    ensures
      var s, final := Traces.Before(c, w, actions, i).store, History.FinalKey(c.taskId);
      && (body == Inferring <==> !Traces.CanceledRow(c, s) && final !in s.session && !HasRows(c, s, r))
      && (body == Finished(Turned(Workflow.Canceled, 0)) <==> Traces.CanceledRow(c, s))
      && (body == Finished(Turned(Workflow.Delegated, 0)) <==> !Traces.CanceledRow(c, s) && final !in s.session && HasRows(c, s, r))
      && (!Traces.CanceledRow(c, s) && final in s.session ==> body == Finished(Turned(Workflow.Replied(s.session[final]), 0)))
  {
    ComesFrom(c, w, actions, i, Turn(r), body);
    var s := Traces.Before(c, w, actions, i).store;
    RowsAreListed(c, s, r);
    hide Safety.Initial, Safety.AllEnabled, Safety.After, Comes, Inv, Calls, HasRows, Rows;
  }

  /**
   * Once an answer is stored no round's model is asked again, and a round with rows
   * never asks its own again, through any crashes and retries.
   */
  lemma DecisionsEndTheAsking(c: Config, w: World, actions: seq<Action>, i: nat, r: nat)
    requires Safety.Initial(c, w) && Safety.AllEnabled(c, w, actions) && i <= |actions|
    requires
      var s := Traces.Before(c, w, actions, i).store;
      History.FinalKey(c.taskId) in s.session || HasRows(c, s, r)
    ensures
      var v := Safety.After(c, w, actions);
      Turn(r) in v.bodies ==> v.bodies[Turn(r)].body != Inferring
  {
    var s, v := Traces.Before(c, w, actions, i).store, Safety.After(c, w, actions);
    Safety.InitiallyInv(c, w);
    Safety.RunsKeepInv(c, w, actions);
    if History.FinalKey(c.taskId) in s.session {
      Origins.MessagesStay(c, w, actions, i, History.FinalKey(c.taskId));
    } else {
      var id :| id in s.subtasks.rows && s.subtasks.rows[id].taskId == c.taskId && s.subtasks.rows[id].round == r;
      Origins.RunKeepsRow(c, w, actions, i, id);
      RowsAreListed(c, v.store, r);
    }
    hide Safety.Initial, Safety.AllEnabled, Safety.After, Rows;
    if Turn(r) in v.bodies {
      FlightKnown(c, v, Turn(r));
    }
  }

  ghost predicate SeesIt(c: Config, s: Store, verdict: Verdict) {
    && (verdict.Canceled? ==> Traces.CanceledRow(c, s))
    && (Traces.CanceledRow(c, s) ==> verdict.Canceled? || verdict.Failed?)
  }

  lemma EntrySees(c: Config, s: Store, call: Call, o: Oracle, verdict: Verdict, turns: nat)
    requires call.name.Turn? && Opening(c, s, call, o).body == Some(Finished(Turned(verdict, turns)))
    ensures SeesIt(c, s, verdict)
  {
    hide Rows, AppendOnce;
  }

  lemma SegmentSees(c: Config, s: Store, r: nat, body: Body, o: Oracle, verdict: Verdict, turns: nat)
    requires Onwards(c, s, Turn(r), body, o).body == Some(Finished(Turned(verdict, turns)))
    ensures SeesIt(c, s, verdict)
  {
    hide Subtasks.Create, Subtasks.CreateAccepts, Rows, AppendOnce;
  }

  /**
   * A turn that is over says that the Task is canceled only if it is, at that instant,
   * and of a canceled Task it says nothing else, unless its model failed.
   */
  lemma TurnSeesTheCancellation(c: Config, w: World, actions: seq<Action>, i: nat, r: nat, verdict: Verdict, turns: nat)
    requires Safety.Initial(c, w) && Safety.AllEnabled(c, w, actions) && i < |actions|
    requires Comes(c, w, actions, i, Turn(r), Finished(Turned(verdict, turns)))
    ensures
      var s := Traces.Before(c, w, actions, i).store;
      && (verdict.Canceled? ==> Traces.CanceledRow(c, s))
      && (Traces.CanceledRow(c, s) ==> verdict.Canceled? || verdict.Failed?)
  {
    hide Safety.Initial, Safety.AllEnabled, Safety.After, Inv, Calls, Opening, Onwards, Traces.CanceledRow;
    ComesFrom(c, w, actions, i, Turn(r), Finished(Turned(verdict, turns)));
    var v := Traces.Before(c, w, actions, i);
    if actions[i].Start? {
      StartsThis(c, w, actions, i, Turn(r), Finished(Turned(verdict, turns)));
      EntrySees(c, v.store, actions[i].call, actions[i].oracle, verdict, turns);
    } else {
      SegmentSees(c, v.store, r, v.bodies[Turn(r)].body, actions[i].oracle, verdict, turns);
    }
  }

  lemma EntryIsFree(c: Config, s: Store, call: Call, o: Oracle, verdict: Verdict, turns: nat)
    requires call.name.Turn? && Opening(c, s, call, o).body == Some(Finished(Turned(verdict, turns)))
    ensures turns == 0
  {
    hide Rows, AppendOnce;
  }

  /** A turn's last segment charges what its decision cost, and is of that decision. */
  lemma SegmentCharges(c: Config, s: Store, r: nat, body: Body, o: Oracle, verdict: Verdict, turns: nat)
    requires Onwards(c, s, Turn(r), body, o).body == Some(Finished(Turned(verdict, turns)))
    ensures body.Inferring? ==> o.inference.Failing? && turns == o.turns && Origins.VerdictOf(verdict, o.inference)
    ensures !body.Inferring? ==> body.Appended? && turns == body.turns
    ensures !body.Inferring? ==>
      verdict.Canceled? || (verdict.Replied? && body.inference.Replying?) || (verdict.Delegated? && body.inference.Delegating?)
  {
    hide Subtasks.Create, Subtasks.CreateAccepts, Rows, AppendOnce;
  }

  /**
   * A turn is charged exactly what its model's call used: nothing when it ended where
   * it started, and otherwise the turns of a decision that was brought to it, and
   * that its verdict is of.
   */
  lemma TurnIsCharged(c: Config, w: World, actions: seq<Action>, i: nat, r: nat, verdict: Verdict, turns: nat)
    requires Safety.Initial(c, w) && Safety.AllEnabled(c, w, actions) && i < |actions|
    requires Comes(c, w, actions, i, Turn(r), Finished(Turned(verdict, turns)))
    ensures if actions[i].Start? then turns == 0 else Origins.Decided(actions, Turn(r), verdict, turns)
  {
    hide Safety.Initial, Safety.AllEnabled, Safety.After, Inv, Calls, Opening, Onwards, Origins.AllSourced, Origins.HasBody;
    ComesFrom(c, w, actions, i, Turn(r), Finished(Turned(verdict, turns)));
    var v, a := Traces.Before(c, w, actions, i), actions[i];
    if a.Start? {
      StartsThis(c, w, actions, i, Turn(r), Finished(Turned(verdict, turns)));
      EntryIsFree(c, v.store, a.call, a.oracle, verdict, turns);
    } else {
      var body := v.bodies[Turn(r)].body;
      SegmentCharges(c, v.store, r, body, a.oracle, verdict, turns);
      if body.Inferring? {
        assert Origins.ModelSaid(actions, i, Turn(r), a.oracle.inference, turns);
      } else {
        AppendedIsSaid(c, w, actions, i, r);
        var k: nat, inference :| Origins.ModelSaid(actions, k, Turn(r), inference, turns) && Origins.IsOf(body.inference, inference);
        hide Comes;
        assert Origins.VerdictOf(verdict, inference);
      }
    }
  }

  lemma AppendedIsSaid(c: Config, w: World, actions: seq<Action>, i: nat, r: nat)
    requires Safety.Initial(c, w) && Safety.AllEnabled(c, w, actions) && i < |actions|
    requires
      var v := Traces.Before(c, w, actions, i);
      Turn(r) in v.bodies && v.bodies[Turn(r)].body.Appended?
    ensures
      var body := Traces.Before(c, w, actions, i).bodies[Turn(r)].body;
      Origins.SaidSo(actions, Turn(r), body.inference, body.turns)
  {
    hide Safety.Initial, Safety.AllEnabled, Safety.After, Inv, Enabled, Next, Origins.HasBody, Origins.SaidSo;
    Origins.StandsIn(c, w, actions, i);
    var v := Traces.Before(c, w, actions, i);
    Origins.InFlight(v, Turn(r));
    assert Origins.Sourced(actions[..i], Turn(r), v.bodies[Turn(r)].body);
    Origins.SaidSoInTheEnd(actions, i, Turn(r), v.bodies[Turn(r)].body.inference, v.bodies[Turn(r)].body.turns);
  }

  /** What a turn came to is among what the Task has said. */
  ghost predicate SaidAs(c: Config, w: World, r: nat, verdict: Verdict) {
    match verdict
    case Replied(text) => Answered(r, text) in w.said
    case Delegated => exists ack :: Handed(r, Of(c, w.store, r), ack) in w.said
    case _ => true
  }

  ghost predicate AllSaid(c: Config, w: World) {
    forall r: nat, verdict, turns :: Origins.HasBody(w, Turn(r), Finished(Turned(verdict, turns))) ==> SaidAs(c, w, r, verdict)
  }

  lemma SaidGrows(c: Config, w: World, a: Action)
    ensures w.said <= Next(c, w, a).said
  {
    hide Opening, Onwards, Agent.HostSave, Agent.CancelTask, Subtasks.Apply;
  }

  lemma OpeningIsSaid(c: Config, s: Store, r: nat, call: Call, o: Oracle)
    requires call.name == Turn(r)
    ensures
      var seg := Opening(c, s, call, o);
      seg.body.Some? && seg.body.value.Finished? ==>
        && seg.body.value.value.Turned?
        && (seg.body.value.value.verdict.Replied? ==> seg.said == Some(Answered(r, seg.body.value.value.verdict.reply)))
        && (seg.body.value.value.verdict.Delegated? ==> seg.said.Some? && seg.said.value.Handed? && seg.said.value.round == r)
  {}

  lemma OnwardsIsSaid(c: Config, s: Store, r: nat, body: Body, o: Oracle)
    ensures
      var seg := Onwards(c, s, Turn(r), body, o);
      seg.body.Some? && seg.body.value.Finished? ==>
        && seg.body.value.value.Turned?
        && (seg.body.value.value.verdict.Replied? ==> seg.said == Some(Answered(r, seg.body.value.value.verdict.reply)))
        && (seg.body.value.value.verdict.Delegated? ==> seg.said.Some? && seg.said.value.Handed? && seg.said.value.round == r)
  {
    hide Subtasks.Create;
  }

  /** What an action says of a turn that it ends. */
  lemma EndingSays(c: Config, w: World, a: Action, r: nat, verdict: Verdict, turns: nat)
    requires Enabled(c, w, a)
    requires (a.Start? && a.call.name == Turn(r)) || (a.Continue? && a.name == Turn(r) && Turn(r) in w.bodies)
    requires
      var seg := if a.Start? then Opening(c, w.store, a.call, a.oracle) else Onwards(c, w.store, Turn(r), w.bodies[Turn(r)].body, a.oracle);
      seg.body == Some(Finished(Turned(verdict, turns)))
    ensures
      var said := Next(c, w, a).said;
      && (verdict.Replied? ==> Answered(r, verdict.reply) in said)
      && (verdict.Delegated? ==> exists h :: h in said && h.Handed? && h.round == r)
  {
    var said := Next(c, w, a).said;
    if a.Start? {
      OpeningIsSaid(c, w.store, r, a.call, a.oracle);
      hide Opening, Calls;
      if verdict.Replied? || verdict.Delegated? {
        assert said[|said| - 1] == Opening(c, w.store, a.call, a.oracle).said.value;
      }
    } else {
      OnwardsIsSaid(c, w.store, r, w.bodies[Turn(r)].body, a.oracle);
      hide Onwards, Legal;
      if verdict.Replied? || verdict.Delegated? {
        assert said[|said| - 1] == Onwards(c, w.store, Turn(r), w.bodies[Turn(r)].body, a.oracle).said.value;
      }
    }
  }

  /** A verdict that was said before is said after. */
  lemma SaidStays(c: Config, w: World, a: Action, r: nat, verdict: Verdict)
    requires Inv(c, w) && Enabled(c, w, a) && SaidAs(c, w, r, verdict)
    ensures SaidAs(c, Next(c, w, a), r, verdict)
  {
    StepKeepsInv(c, w, a);
    SaidGrows(c, w, a);
    var next := Next(c, w, a);
    if verdict.Delegated? {
      var ack :| Handed(r, Of(c, w.store, r), ack) in w.said;
      var k :| 0 <= k < |w.said| && w.said[k] == Handed(r, Of(c, w.store, r), ack);
      assert next.said[k] == w.said[k];
      HandedIsTheRound(c, next, k);
      hide Inv, Next, Enabled;
    } else {
      hide Inv, Next, Enabled;
    }
  }

  lemma HandedIsTheRound(c: Config, w: World, k: nat)
    requires Inv(c, w) && k < |w.said| && w.said[k].Handed?
    ensures w.said[k].ids == Of(c, w.store, w.said[k].round)
  {
    assert SaidFact(c, w.store, w.said[k]);
  }

  lemma StepIsSaid(c: Config, w: World, a: Action)
    requires Inv(c, w) && Enabled(c, w, a) && AllSaid(c, w)
    ensures AllSaid(c, Next(c, w, a))
  {
    StepKeepsInv(c, w, a);
    var next := Next(c, w, a);
    hide Inv, Enabled, Next, Origins.HasBody, Opening, Onwards, Of;
    forall r: nat, verdict, turns | Origins.HasBody(next, Turn(r), Finished(Turned(verdict, turns)))
      ensures SaidAs(c, next, r, verdict)
    {
      Origins.BodiesMove(c, w, a, Turn(r), Finished(Turned(verdict, turns)));
      if Origins.HasBody(w, Turn(r), Finished(Turned(verdict, turns))) {
        SaidStays(c, w, a, r, verdict);
      } else {
        EndingSays(c, w, a, r, verdict, turns);
        if verdict.Delegated? {
          var h :| h in next.said && h.Handed? && h.round == r;
          var k :| 0 <= k < |next.said| && next.said[k] == h;
          HandedIsTheRound(c, next, k);
          assert h == Handed(r, Of(c, next.store, r), h.ack);
        }
      }
    }
  }

  lemma {:induction false} RunsAreSaid(c: Config, w: World, actions: seq<Action>)
    requires Inv(c, w) && AllSaid(c, w) && Safety.AllEnabled(c, w, actions)
    ensures AllSaid(c, Safety.After(c, w, actions))
    decreases actions
  {
    hide Inv, Enabled, Next, AllSaid;
    if actions != [] {
      StepIsSaid(c, w, actions[0]);
      StepKeepsInv(c, w, actions[0]);
      RunsAreSaid(c, Next(c, w, actions[0]), actions[1..]);
    }
  }

  ghost predicate AreTheRound(c: Config, s: Store, r: nat, ids: set<nat>) {
    forall id :: id in ids <==> id in s.subtasks.rows && s.subtasks.rows[id].taskId == c.taskId && s.subtasks.rows[id].round == r
  }

  /**
   * Nothing a turn comes to goes unsaid: each answer, and each hand-out with exactly
   * the round's rows, is among what the Task has told its caller.
   */
  lemma VerdictsAreSaid(c: Config, w: World, actions: seq<Action>, r: nat, verdict: Verdict, turns: nat)
    requires Safety.Initial(c, w) && Safety.AllEnabled(c, w, actions)
    requires Traces.CameTo(Safety.After(c, w, actions), Turn(r), Turned(verdict, turns))
    ensures
      var v := Safety.After(c, w, actions);
      && (verdict.Replied? ==> Answered(r, verdict.reply) in v.said)
      && (verdict.Delegated? ==> exists ids, ack :: Handed(r, ids, ack) in v.said && AreTheRound(c, v.store, r, ids))
  {
    var v := Safety.After(c, w, actions);
    Safety.InitiallyInv(c, w);
    hide Inv;
    assert AllSaid(c, w);
    RunsAreSaid(c, w, actions);
    hide Safety.Initial, Safety.AllEnabled, Safety.After;
    assert Origins.HasBody(v, Turn(r), Finished(Turned(verdict, turns)));
    assert SaidAs(c, v, r, verdict);
    if verdict.Delegated? {
      var ack :| Handed(r, Of(c, v.store, r), ack) in v.said;
      assert AreTheRound(c, v.store, r, Of(c, v.store, r));
    }
  }

  // ---- a subtask's chunk ---------------------------------------------------------------------------------

  /** The row as a child's result leaves it. */
  ghost predicate Records(row: Subtasks.Row, result: ChildResult, now: int) {
    && row.completedAt == Some(now)
    && match result
       case ChildFailed(error) => row.status == Subtasks.Failed && row.error == Some(error)
       case ChildCompleted(parts) =>
         if exists k :: 0 <= k < |parts| && !Text.Blank(parts[k])
         then row.status == Subtasks.Completed && row.results == Some(parts)
         else row.status == Subtasks.Failed && row.error == Some("malformed result")
  }

  ghost predicate IsOpen(row: Subtasks.Row) {
    row.status == Subtasks.Pending || row.status == Subtasks.Running
  }

  /** What a chunk's start makes of a row of the Task, and what its body is then. */
  ghost predicate OpensAs(c: Config, s: Store, t: Store, id: nat, resolved: Resolved, body: Body)
    requires id in s.subtasks.rows && id in t.subtasks.rows
  {
    var row, after := s.subtasks.rows[id], t.subtasks.rows[id];
    && (body == Executing(c.taskId) <==> IsOpen(row) && !Traces.CanceledRow(c, s) && resolved.Usable?)
    && (body != Executing(c.taskId) ==> body == Finished(Flag(true)) && !IsOpen(after))
    && (!IsOpen(row) ==> t == s)
    && (IsOpen(row) && Traces.CanceledRow(c, s) ==> after.status == Subtasks.Canceled)
    && (IsOpen(row) && !Traces.CanceledRow(c, s) ==>
          && after.recipe == (if row.status == Subtasks.Pending then Some(resolved.recipe) else row.recipe)
          && if resolved.Usable? then after.status == Subtasks.Running
             else after.status == Subtasks.Failed && after.error == Some(resolved.why))
  }

  lemma PreparesAs(c: Config, s: Store, id: nat, resolved: Resolved, now: int)
    requires id in s.subtasks.rows && s.subtasks.rows[id].taskId == c.taskId
    requires Traces.CanceledRow(c, s) ==> s.subtasks.rows[id].status != Subtasks.Pending
    ensures
      var seg := PrepareChunk(s, id, resolved, now);
      seg.body.Some? && id in seg.store.subtasks.rows && OpensAs(c, s, seg.store, id, resolved, seg.body.value)
  {}

  lemma ChunkOpens(c: Config, s: Store, call: Call, o: Oracle)
    requires call.name.Execute?
    ensures Opening(c, s, call, o) == PrepareChunk(s, call.name.id, o.resolved, o.now)
  {
    hide PrepareChunk;
  }

  /**
   * A chunk that starts leaves a terminal row alone, cancels the row of a canceled
   * Task, fails one whose type has no usable recipe, and otherwise runs on a row that
   * is running, under the recipe it was first claimed with.
   */
  lemma ChunkOpensAs(c: Config, w: World, actions: seq<Action>, i: nat, id: nat, chunk: nat, body: Body)
    requires Safety.Initial(c, w) && Safety.AllEnabled(c, w, actions) && i < |actions|
    requires actions[i].Start? && Comes(c, w, actions, i, Execute(id, chunk), body)
    ensures
      var s, t := Traces.Before(c, w, actions, i).store, Traces.Before(c, w, actions, i + 1).store;
      id in s.subtasks.rows && id in t.subtasks.rows && OpensAs(c, s, t, id, actions[i].oracle.resolved, body)
  {
    hide Safety.Initial, Safety.AllEnabled, Safety.After, Inv, Calls, PrepareChunk, OpensAs, Opening, Onwards;
    ComesFrom(c, w, actions, i, Execute(id, chunk), body);
    StartsThis(c, w, actions, i, Execute(id, chunk), body);
    hide Comes, Traces.CanceledRow;
    var v := Traces.Before(c, w, actions, i);
    ChunkOpens(c, v.store, actions[i].call, actions[i].oracle);
    Safety.BranchOfCall(c, v, actions[i].call);
    if Traces.CanceledRow(c, v.store) {
      CanceledHasNonePending(c, v);
    }
    PreparesAs(c, v.store, id, actions[i].oracle.resolved, actions[i].oracle.now);
  }

  /**
   * What a chunk brings back is used exactly when the Task is not canceled by then: a
   * yield is recorded as not done and writes nothing, a result goes on to its hook. On
   * a canceled Task it is dropped and the row is canceled.
   */
  lemma ChunkIsReceivedAs(c: Config, w: World, actions: seq<Action>, i: nat, id: nat, chunk: nat, body: Body)
    requires Safety.Initial(c, w) && Safety.AllEnabled(c, w, actions) && i < |actions|
    requires actions[i].Continue? && Comes(c, w, actions, i, Execute(id, chunk), body)
    requires
      var bodies := Traces.Before(c, w, actions, i).bodies;
      Execute(id, chunk) in bodies && bodies[Execute(id, chunk)].body.Executing?
    ensures
      var s, t, o := Traces.Before(c, w, actions, i).store, Traces.Before(c, w, actions, i + 1).store, actions[i].oracle;
      if Traces.CanceledRow(c, s) then
        && body == Finished(Flag(true)) && id in s.subtasks.rows && id in t.subtasks.rows
        && (s.subtasks.rows[id].status == Subtasks.Running ==> t.subtasks.rows[id].status == Subtasks.Canceled)
        && (s.subtasks.rows[id].status != Subtasks.Running ==> t == s)
      else t == s && body == if o.chunk.Yielded? then Finished(Flag(false)) else Enriching(c.taskId, o.chunk.result)
  {
    ComesFrom(c, w, actions, i, Execute(id, chunk), body);
    var v := Traces.Before(c, w, actions, i);
    FlightKnown(c, v, Execute(id, chunk));
    hide Safety.Initial, Safety.AllEnabled, Safety.After, Comes, Inv, Calls, Legal, Charged;
  }

  lemma PersistsAs(c: Config, s: Store, id: nat, chunk: nat, result: ChildResult, o: Oracle)
    requires Claimed(s, id)
    ensures
      var seg := Onwards(c, s, Execute(id, chunk), Enriching(c.taskId, result), o);
      && seg.body == Some(Finished(Flag(true))) && id in seg.store.subtasks.rows
      && (if s.subtasks.rows[id].status == Subtasks.Running then Records(seg.store.subtasks.rows[id], result, o.now) else seg.store == s)
  {}

  /** After the hook a running row records the result, whole, and a row that was settled meanwhile is left alone. */
  lemma ResultIsRecordedAs(c: Config, w: World, actions: seq<Action>, i: nat, id: nat, chunk: nat, body: Body, result: ChildResult)
    requires Safety.Initial(c, w) && Safety.AllEnabled(c, w, actions) && i < |actions|
    requires actions[i].Continue? && Comes(c, w, actions, i, Execute(id, chunk), body)
    requires
      var bodies := Traces.Before(c, w, actions, i).bodies;
      Execute(id, chunk) in bodies && bodies[Execute(id, chunk)].body == Enriching(c.taskId, result)
    ensures
      var s, t, o := Traces.Before(c, w, actions, i).store, Traces.Before(c, w, actions, i + 1).store, actions[i].oracle;
      && body == Finished(Flag(true)) && id in s.subtasks.rows && id in t.subtasks.rows
      && (if s.subtasks.rows[id].status == Subtasks.Running then Records(t.subtasks.rows[id], result, o.now) else t == s)
  {
    hide Safety.Initial, Safety.AllEnabled, Safety.After, Inv, Calls, Opening, Onwards, Legal, Charged, Records;
    ComesFrom(c, w, actions, i, Execute(id, chunk), body);
    var v := Traces.Before(c, w, actions, i);
    FlightKnown(c, v, Execute(id, chunk));
    PersistsAs(c, v.store, id, chunk, result, actions[i].oracle);
  }

  // ---- the Task's own row ------------------------------------------------------------------------------------

  /** The first step moves a submitted Task to working, and no other. */
  lemma WorkIsMarked(c: Config, w: World, actions: seq<Action>, i: nat)
    requires Safety.Initial(c, w) && Safety.AllEnabled(c, w, actions) && i < |actions|
    requires actions[i].Start? && actions[i].call.name == Working && c.taskId in Traces.Before(c, w, actions, i).store.tasks
    ensures
      var s, t := Traces.Before(c, w, actions, i).store, Traces.Before(c, w, actions, i + 1).store;
      if s.tasks[c.taskId].task.state == Tasks.Submitted
      then c.taskId in t.tasks && t.tasks[c.taskId].task == s.tasks[c.taskId].task.(state := Tasks.Working, timestamp := actions[i].oracle.now)
      else t == s
  {
    Origins.StandsIn(c, w, actions, i);
    var v := Traces.Before(c, w, actions, i);
    Safety.NextStore(c, v, actions[i]);
    InvSound(c, v);
    hide Safety.Initial, Safety.AllEnabled, Safety.After, Inv, Next, Enabled, Origins.AllSourced, Subtasks.Valid;
  }

  lemma InvSound(c: Config, w: World)
    requires Inv(c, w)
    ensures Sound(c, w.store)
  {}

  /** The action cancels the Task at this instant: its caller does, or the host saves it canceled. */
  predicate Cancels(c: Config, a: Action, now: int) {
    || a == CancelTask(c.taskId, now)
    || (a.HostSave? && a.task.id == c.taskId && a.task.state.Canceled? && a.now == now)
  }

  predicate MayCancel(state: Tasks.TaskState) {
    state == Tasks.Submitted || state == Tasks.Working
  }

  lemma CancelingMoves(c: Config, s: Store, a: Action, now: int)
    requires Sound(c, s) && Cancels(c, a, now) && c.taskId in s.tasks && MayCancel(s.tasks[c.taskId].task.state)
    ensures
      var t := if a.CancelTask? then Agent.CancelTask(s, a.taskId, a.now) else Agent.HostSave(s, a.task, a.now);
      && Traces.CanceledRow(c, t)
      && forall id :: id in s.subtasks.rows && s.subtasks.rows[id].taskId == c.taskId && s.subtasks.rows[id].status == Subtasks.Pending ==>
           && id in t.subtasks.rows
           && t.subtasks.rows[id] == s.subtasks.rows[id].(status := Subtasks.Canceled, updatedAt := now, completedAt := Some(now))
  {}

  /**
   * Canceling a submitted or working Task settles it for good: after any continuation
   * it is canceled, the rows that were pending are canceled as of that instant, and
   * none of its rows is pending.
   */
  lemma CancellationSettles(c: Config, w: World, actions: seq<Action>, i: nat, now: int)
    requires Safety.Initial(c, w) && Safety.AllEnabled(c, w, actions) && i < |actions| && Cancels(c, actions[i], now)
    requires
      var s := Traces.Before(c, w, actions, i).store;
      c.taskId in s.tasks && MayCancel(s.tasks[c.taskId].task.state)
    ensures
      var s, t := Traces.Before(c, w, actions, i).store, Safety.After(c, w, actions).store;
      && Traces.CanceledRow(c, t)
      && (forall id :: id in s.subtasks.rows && s.subtasks.rows[id].taskId == c.taskId && s.subtasks.rows[id].status == Subtasks.Pending ==>
            && id in t.subtasks.rows
            && t.subtasks.rows[id] == s.subtasks.rows[id].(status := Subtasks.Canceled, updatedAt := now, completedAt := Some(now)))
      && (forall id :: id in t.subtasks.rows && t.subtasks.rows[id].taskId == c.taskId ==> t.subtasks.rows[id].status != Subtasks.Pending)
  {
    Origins.StandsIn(c, w, actions, i);
    Safety.InitiallyInv(c, w);
    var v, u, end := Traces.Before(c, w, actions, i), Traces.Before(c, w, actions, i + 1), Safety.After(c, w, actions);
    Safety.NextStore(c, v, actions[i]);
    InvSound(c, v);
    CancelingMoves(c, v.store, actions[i], now);
    hide Safety.Initial, Safety.AllEnabled, Safety.After, Inv, Enabled, Next, Origins.AllSourced, Agent.CancelTask, Agent.HostSave, Sound;
    Origins.CancellationStays(c, w, actions, i + 1);
    Safety.RunsKeepInv(c, w, actions);
    CanceledHasNonePending(c, end);
    forall id | id in v.store.subtasks.rows && v.store.subtasks.rows[id].taskId == c.taskId && v.store.subtasks.rows[id].status == Subtasks.Pending
      ensures id in end.store.subtasks.rows && end.store.subtasks.rows[id] == u.store.subtasks.rows[id]
    {
      Origins.RunKeepsRow(c, w, actions, i + 1, id);
    }
  }

  lemma CanceledHasNonePending(c: Config, w: World)
    requires Inv(c, w) && Traces.CanceledRow(c, w.store)
    ensures forall id :: id in w.store.subtasks.rows && w.store.subtasks.rows[id].taskId == c.taskId ==> w.store.subtasks.rows[id].status != Subtasks.Pending
  {}

  /** On a Task in any other state, or on none, a caller's cancellation changes nothing. */
  lemma LateCancellationIsNothing(c: Config, w: World, actions: seq<Action>, i: nat, now: int)
    requires Safety.Initial(c, w) && Safety.AllEnabled(c, w, actions) && i < |actions| && actions[i] == CancelTask(c.taskId, now)
    requires
      var s := Traces.Before(c, w, actions, i).store;
      c.taskId in s.tasks ==> !MayCancel(s.tasks[c.taskId].task.state)
    ensures Traces.Before(c, w, actions, i + 1) == Traces.Before(c, w, actions, i)
  {
    Origins.StandsIn(c, w, actions, i);
    hide Safety.Initial, Safety.AllEnabled, Safety.After, Inv, Enabled, Origins.AllSourced;
  }

  /** A running row that a cancellation finds without anything in flight is canceled, for good. */
  lemma ResolvedRowIsCanceled(c: Config, w: World, actions: seq<Action>, i: nat, id: nat, now: int)
    requires Safety.Initial(c, w) && Safety.AllEnabled(c, w, actions) && i < |actions| && actions[i] == Resolve(id, now)
    requires
      var s := Traces.Before(c, w, actions, i).store;
      id in s.subtasks.rows && s.subtasks.rows[id].status == Subtasks.Running
    ensures
      var s, t := Traces.Before(c, w, actions, i).store, Safety.After(c, w, actions).store;
      && id in t.subtasks.rows
      && t.subtasks.rows[id] == s.subtasks.rows[id].(status := Subtasks.Canceled, updatedAt := now, completedAt := Some(now))
  {
    Origins.StandsIn(c, w, actions, i);
    Safety.InitiallyInv(c, w);
    var v, u := Traces.Before(c, w, actions, i), Traces.Before(c, w, actions, i + 1);
    Safety.NextStore(c, v, actions[i]);
    hide Safety.Initial, Safety.AllEnabled, Safety.After, Inv, Enabled, Next, Origins.AllSourced;
    Origins.RunKeepsRow(c, w, actions, i + 1, id);
  }
}
