/**
 * The two endings of a round, `final_reply` and `delegate`: which call counts, what
 * makes it usable, and where a delegated subtask's references come from.
 */
module Control {
  import opened Wrappers
  import Render
  import Sublists
  import Subtasks
  import Text

  datatype Tool = FinalReply | Delegate | Work

  /** One subtask of a delegate call, as the model wrote it. */
  datatype Ask = Ask(kind: string, prompt: string, indexes: Option<seq<int>>, params: map<string, Option<string>>)

  /** A call's input: nothing has checked it yet. */
  datatype Input = Malformed | Reply(text: string) | Asks(reply: string, subtasks: seq<Ask>)

  datatype ToolCall = ToolCall(tool: Tool, input: Input)

  datatype Decision = Answer(text: string) | Delegation(reply: string, drafts: seq<Subtasks.Draft>)

  datatype Refusal =
    | BadInput
    | CalledTwice(times: nat)
    | RepeatedIndex(subtask: nat, index: int)
    | UnknownIndex(subtask: nat, index: int)
    | BadParams(subtask: nat, why: string)

  /** What the calls of one attempt amount to. */
  datatype Ending = NoEnding | Rejected(tool: Tool, input: Input, why: Refusal) | Decided(decision: Decision)

  type Params = map<string, string>

  /** What a round's control tools are built over. */
  datatype Controls = Controls(
    catalog: seq<Render.Entry>, delegable: bool, kinds: set<string>, maxSubtasks: nat,
    validate: (string, Params) -> Result<Params, string>)

  // ---- references: by index only ----------------------------------------------------------

  /** The first index that cannot be taken, scanning from the left: repeats before unknown ones. */
  function FirstBadIndex(subtask: nat, indexes: seq<int>, from: nat, size: nat): Option<Refusal>
    requires from <= |indexes|
    decreases |indexes| - from
  {
    if from == |indexes| then None
    else if indexes[from] in indexes[..from] then Some(RepeatedIndex(subtask, indexes[from]))
    else if indexes[from] > size then Some(UnknownIndex(subtask, indexes[from]))
    else FirstBadIndex(subtask, indexes, from + 1, size)
  }

  function Sorted(indexes: seq<int>): seq<int>
    decreases indexes
  {
    if indexes == [] then [] else Placed(indexes[|indexes| - 1], Sorted(indexes[..|indexes| - 1]))
  }

  function Placed(index: int, sorted: seq<int>): seq<int>
    decreases sorted
  {
    if sorted == [] || index <= sorted[0] then [index] + sorted else [sorted[0]] + Placed(index, sorted[1..])
  }

  ghost predicate Distinct(indexes: seq<int>) {
    forall i, j :: 0 <= i < j < |indexes| ==> indexes[i] != indexes[j]
  }

  ghost predicate Ascending(indexes: seq<int>) {
    forall i, j :: 0 <= i < j < |indexes| ==> indexes[i] < indexes[j]
  }

  /** Every index names an entry, and none twice. */
  ghost predicate Selectable(indexes: seq<int>, size: nat) {
    Distinct(indexes) && forall i :: 0 <= i < |indexes| ==> 1 <= indexes[i] <= size
  }

  /** The references are the entries at `chosen`, word for word, and `chosen` ascends. */
  ghost predicate Snapshots(references: seq<Subtasks.Reference>, chosen: seq<int>, catalog: seq<Render.Entry>) {
    && Ascending(chosen) && |references| == |chosen|
    && forall k :: 0 <= k < |chosen| ==> 1 <= chosen[k] <= |catalog| && references[k] == catalog[chosen[k] - 1].reference
  }

  /** The indexes that are out of the schema's range never get this far. */
  method ResolveReferences(subtask: nat, indexes: Option<seq<int>>, catalog: seq<Render.Entry>)
    returns (r: Result<seq<Subtasks.Reference>, Refusal>)
    requires indexes.Some? ==> forall i :: 0 <= i < |indexes.value| ==> indexes.value[i] >= 1
    ensures r == References(subtask, indexes, catalog)
  {
    if indexes.None? {
      return Success([]);
    }
    var all := indexes.value;
    var seen: set<int> := {};
    for i := 0 to |all|
      invariant forall k :: k in seen <==> k in all[..i]
      invariant FirstBadIndex(subtask, all, 0, |catalog|) == FirstBadIndex(subtask, all, i, |catalog|)
      invariant forall k :: 0 <= k < i ==> all[k] <= |catalog|
    {
      if all[i] in seen {
        return Failure(RepeatedIndex(subtask, all[i]));
      }
      seen := seen + {all[i]};
      if all[i] > |catalog| {
        return Failure(UnknownIndex(subtask, all[i]));
      }
      assert all[..i + 1] == all[..i] + [all[i]];
    }
    var sorted := Sorted(all);
    SortedSame(all);
    var references := [];
    for k := 0 to |sorted|
      invariant references == Picked(sorted[..k], catalog)
    {
      assert sorted[k] in sorted;
      assert sorted[..k + 1][..k] == sorted[..k];
      references := references + [catalog[sorted[k] - 1].reference];
    }
    assert sorted[..|sorted|] == sorted;
    r := Success(references);
  }

  function Picked(chosen: seq<int>, catalog: seq<Render.Entry>): seq<Subtasks.Reference>
    decreases chosen
  {
    if chosen == [] then []
    else
      var n := |chosen| - 1;
      Picked(chosen[..n], catalog) + (if 1 <= chosen[n] <= |catalog| then [catalog[chosen[n] - 1].reference] else [])
  }

  function References(subtask: nat, indexes: Option<seq<int>>, catalog: seq<Render.Entry>): Result<seq<Subtasks.Reference>, Refusal> {
    if indexes.None? then Success([])
    else
      match FirstBadIndex(subtask, indexes.value, 0, |catalog|)
      case Some(why) => Failure(why)
      case None => Success(Picked(Sorted(indexes.value), catalog))
  }

  // ---- the delegate call --------------------------------------------------------------------

  /** The schema of one asked subtask. */
  predicate WellTyped(a: Ask, kinds: set<string>) {
    && a.kind in kinds
    && !Text.Blank(a.prompt)
    && (a.indexes.Some? ==> forall i :: 0 <= i < |a.indexes.value| ==> a.indexes.value[i] >= 1)
  }

  predicate Proposes(input: Input, c: Controls) {
    && input.Asks?
    && !Text.Blank(input.reply)
    && 1 <= |input.subtasks| <= c.maxSubtasks
    && forall i :: 0 <= i < |input.subtasks| ==> WellTyped(input.subtasks[i], c.kinds)
  }

  function DefinedParams(params: map<string, Option<string>>): Params {
    map k | k in params && params[k].Some? :: params[k].value
  }

  function Resolved(i: nat, a: Ask, c: Controls): Result<Subtasks.Draft, Refusal> {
    var kind := Text.Trim(a.kind);
    match c.validate(kind, DefinedParams(a.params))
    case Failure(why) => Failure(BadParams(i, why))
    case Success(params) =>
      match References(i, a.indexes, c.catalog)
      case Failure(why) => Failure(why)
      case Success(references) => Success(Subtasks.Draft(kind, Text.Trim(a.prompt), references, params))
  }

  /** The drafts in the order they were asked for, or the first refusal. */
  function Drafts(asks: seq<Ask>, c: Controls): Result<seq<Subtasks.Draft>, Refusal>
    decreases asks
  {
    if asks == [] then Success([])
    else
      var n := |asks| - 1;
      match Drafts(asks[..n], c)
      case Failure(why) => Failure(why)
      case Success(drafts) =>
        match Resolved(n + 1, asks[n], c)
        case Failure(why) => Failure(why)
        case Success(draft) => Success(drafts + [draft])
  }

  function ParseDelegate(input: Input, c: Controls): Result<Decision, Refusal> {
    if !Proposes(input, c) then Failure(BadInput)
    else
      match Drafts(input.subtasks, c)
      case Failure(why) => Failure(why)
      case Success(drafts) => Success(Delegation(Text.Trim(input.reply), drafts))
  }

  function ParseReply(input: Input): Result<Decision, Refusal> {
    if input.Reply? && !Text.Blank(input.text) then Success(Answer(Text.Trim(input.text))) else Failure(BadInput)
  }

  // ---- which ending a round lands on ------------------------------------------------------------

  function InputsTo(calls: seq<ToolCall>, tool: Tool): seq<Input>
    decreases calls
  {
    if calls == [] then []
    else
      var n := |calls| - 1;
      InputsTo(calls[..n], tool) + (if calls[n].tool == tool then [calls[n].input] else [])
  }

  /** `delegate` is declared only when there is something to delegate to and the round may. */
  predicate OffersDelegate(c: Controls) {
    c.delegable && c.kinds != {}
  }

  function Concluded(tool: Tool, input: Input, parsed: Result<Decision, Refusal>): Ending {
    match parsed
    case Success(decision) => Decided(decision)
    case Failure(why) => Rejected(tool, input, why)
  }

  /** The most committal ending that was called; a repeated answer is restated, a repeated delegation is refused. */
  function EndingOf(calls: seq<ToolCall>, c: Controls): Ending {
    var delegations, replies := InputsTo(calls, Delegate), InputsTo(calls, FinalReply);
    if OffersDelegate(c) && |delegations| > 1 then Rejected(Delegate, delegations[0], CalledTwice(|delegations|))
    else if OffersDelegate(c) && |delegations| == 1 then Concluded(Delegate, delegations[0], ParseDelegate(delegations[0], c))
    else if |replies| > 0 then Concluded(FinalReply, replies[|replies| - 1], ParseReply(replies[|replies| - 1]))
    else NoEnding
  }

  // ---- proofs -------------------------------------------------------------------------------------

  ghost predicate NonDescending(indexes: seq<int>) {
    forall i, j :: 0 <= i < j < |indexes| ==> indexes[i] <= indexes[j]
  }

  lemma {:induction false} PlacedSame(index: int, sorted: seq<int>)
    ensures multiset(Placed(index, sorted)) == multiset(sorted) + multiset{index}
    decreases sorted
  {
    if sorted != [] {
      assert sorted == [sorted[0]] + sorted[1..];
      if index > sorted[0] {
        PlacedSame(index, sorted[1..]);
      }
    }
  }

  lemma {:induction false} PlacedAscends(index: int, sorted: seq<int>)
    requires NonDescending(sorted)
    ensures NonDescending(Placed(index, sorted))
    ensures forall x :: x in Placed(index, sorted) <==> x == index || x in sorted
    decreases sorted
  {
    if sorted != [] && index > sorted[0] {
      PlacedAscends(index, sorted[1..]);
      assert forall x :: x in sorted <==> x == sorted[0] || x in sorted[1..];
      var rest := Placed(index, sorted[1..]);
      forall j | 0 <= j < |rest|
        ensures sorted[0] <= rest[j]
      {
        assert rest[j] in rest;
      }
    }
  }

  lemma {:induction false} SortedCounts(indexes: seq<int>)
    ensures multiset(Sorted(indexes)) == multiset(indexes)
    decreases indexes
  {
    if indexes != [] {
      var rest, last := indexes[..|indexes| - 1], indexes[|indexes| - 1];
      assert Sorted(indexes) == Placed(last, Sorted(rest));
      assert indexes == rest + [last];
      SortedCounts(rest);
      hide Sorted, Placed;
      PlacedSame(last, Sorted(rest));
    }
  }

  lemma {:induction false} SortedRises(indexes: seq<int>)
    ensures NonDescending(Sorted(indexes))
    decreases indexes
  {
    if indexes != [] {
      var rest, last := indexes[..|indexes| - 1], indexes[|indexes| - 1];
      assert Sorted(indexes) == Placed(last, Sorted(rest));
      SortedRises(rest);
      hide Sorted, Placed, NonDescending;
      PlacedAscends(last, Sorted(rest));
    }
  }

  lemma SortedSame(indexes: seq<int>)
    ensures multiset(Sorted(indexes)) == multiset(indexes)
    ensures NonDescending(Sorted(indexes))
    ensures forall x :: x in Sorted(indexes) <==> x in indexes
  {
    hide Sorted, NonDescending;
    SortedCounts(indexes);
    SortedRises(indexes);
    forall x
      ensures x in Sorted(indexes) <==> x in indexes
    {
      assert x in Sorted(indexes) <==> x in multiset(Sorted(indexes));
      assert x in indexes <==> x in multiset(indexes);
    }
  }

  lemma DistinctByCount(indexes: seq<int>)
    ensures Distinct(indexes) <==> forall x :: multiset(indexes)[x] <= 1
  {
    if Distinct(indexes) {
      CountAtMostOnce(indexes);
    } else {
      var i, j :| 0 <= i < j < |indexes| && indexes[i] == indexes[j];
      assert indexes == indexes[..j] + [indexes[j]] + indexes[j + 1..];
      assert indexes[..j][i] == indexes[j];
      assert indexes[j] in multiset(indexes[..j]);
      assert multiset(indexes)[indexes[j]] >= 2;
    }
  }

  lemma {:induction false} CountAtMostOnce(indexes: seq<int>)
    requires Distinct(indexes)
    ensures forall x :: multiset(indexes)[x] <= 1
    decreases indexes
  {
    if indexes != [] {
      var n := |indexes| - 1;
      CountAtMostOnce(indexes[..n]);
      assert indexes == indexes[..n] + [indexes[n]];
      assert indexes[n] !in indexes[..n];
      assert indexes[n] !in multiset(indexes[..n]);
    }
  }

  lemma SortedAscends(indexes: seq<int>)
    requires Distinct(indexes)
    ensures Ascending(Sorted(indexes))
  {
    SortedSame(indexes);
    DistinctByCount(indexes);
    DistinctByCount(Sorted(indexes));
  }

  lemma {:induction false} BadIndexFound(subtask: nat, indexes: seq<int>, from: nat, size: nat)
    requires from <= |indexes|
    ensures FirstBadIndex(subtask, indexes, from, size).None? <==>
      forall i :: from <= i < |indexes| ==> indexes[i] !in indexes[..i] && indexes[i] <= size
    decreases |indexes| - from
  {
    if from < |indexes| && indexes[from] !in indexes[..from] && indexes[from] <= size {
      BadIndexFound(subtask, indexes, from + 1, size);
    }
  }

  lemma OneMoreSnapshot(references: seq<Subtasks.Reference>, chosen: seq<int>, index: int, catalog: seq<Render.Entry>)
    requires Snapshots(references, chosen, catalog)
    requires Ascending(chosen + [index]) && 1 <= index <= |catalog|
    ensures Snapshots(references + [catalog[index - 1].reference], chosen + [index], catalog)
  {
    hide Ascending;
  }

  lemma {:induction false} PickedAreSnapshots(chosen: seq<int>, catalog: seq<Render.Entry>)
    requires Ascending(chosen) && forall k :: 0 <= k < |chosen| ==> 1 <= chosen[k] <= |catalog|
    ensures Snapshots(Picked(chosen, catalog), chosen, catalog)
    decreases chosen
  {
    if chosen != [] {
      var n := |chosen| - 1;
      assert Ascending(chosen[..n]);
      hide Snapshots, Ascending;
      PickedAreSnapshots(chosen[..n], catalog);
      OneMoreSnapshot(Picked(chosen[..n], catalog), chosen[..n], chosen[n], catalog);
      assert chosen[..n] + [chosen[n]] == chosen;
    }
  }

  /** A selection is accepted exactly when it can be honoured, and then it is snapshot in conversation order. */
  lemma ReferencesAreSnapshots(subtask: nat, indexes: seq<int>, catalog: seq<Render.Entry>)
    requires forall i :: 0 <= i < |indexes| ==> indexes[i] >= 1
    ensures References(subtask, Some(indexes), catalog).Success? <==> Selectable(indexes, |catalog|)
    ensures References(subtask, Some(indexes), catalog).Success? ==>
      && Snapshots(References(subtask, Some(indexes), catalog).value, Sorted(indexes), catalog)
      && multiset(Sorted(indexes)) == multiset(indexes)
  {
    BadIndexFound(subtask, indexes, 0, |catalog|);
    assert Selectable(indexes, |catalog|) <==> forall i :: 0 <= i < |indexes| ==> indexes[i] !in indexes[..i] && indexes[i] <= |catalog| by {
      if forall i :: 0 <= i < |indexes| ==> indexes[i] !in indexes[..i] && indexes[i] <= |catalog| {
        forall i, j | 0 <= i < j < |indexes|
          ensures indexes[i] != indexes[j]
        {
          assert indexes[..j][i] == indexes[i];
        }
      }
    }
    SortedSame(indexes);
    if Selectable(indexes, |catalog|) {
      SortedAscends(indexes);
      forall k | 0 <= k < |Sorted(indexes)|
        ensures 1 <= Sorted(indexes)[k] <= |catalog|
      {
        assert Sorted(indexes)[k] in indexes;
      }
      PickedAreSnapshots(Sorted(indexes), catalog);
    }
  }

  /** A draft is the ask it came from: trimmed words, accepted params, snapshots of its indexes. */
  ghost predicate DraftOf(d: Subtasks.Draft, a: Ask, c: Controls) {
    && d.kind == Text.Trim(a.kind) && a.kind in c.kinds
    && d.prompt == Text.Trim(a.prompt) && d.prompt != ""
    && c.validate(d.kind, DefinedParams(a.params)) == Success(d.params)
    && (a.indexes.None? ==> d.references == [])
    && (a.indexes.Some? ==>
          && Selectable(a.indexes.value, |c.catalog|)
          && Snapshots(d.references, Sorted(a.indexes.value), c.catalog)
          && multiset(Sorted(a.indexes.value)) == multiset(a.indexes.value))
  }

  /** What an ask must be for a draft to come of it. */
  ghost predicate Acceptable(a: Ask, c: Controls) {
    && c.validate(Text.Trim(a.kind), DefinedParams(a.params)).Success?
    && (a.indexes.Some? ==> Selectable(a.indexes.value, |c.catalog|))
  }

  lemma ResolvedIsItsAsk(i: nat, a: Ask, c: Controls)
    requires WellTyped(a, c.kinds)
    ensures Resolved(i, a, c).Success? <==> Acceptable(a, c)
    ensures Resolved(i, a, c).Success? ==> DraftOf(Resolved(i, a, c).value, a, c)
  {
    Text.TrimKeepsText(a.prompt);
    if a.indexes.Some? {
      ReferencesAreSnapshots(i, a.indexes.value, c.catalog);
    }
  }

  lemma {:induction false} DraftsAreTheirAsks(asks: seq<Ask>, c: Controls)
    requires forall i :: 0 <= i < |asks| ==> WellTyped(asks[i], c.kinds)
    ensures Drafts(asks, c).Success? <==> forall i :: 0 <= i < |asks| ==> Acceptable(asks[i], c)
    ensures Drafts(asks, c).Success? ==>
      |Drafts(asks, c).value| == |asks| && forall i :: 0 <= i < |asks| ==> DraftOf(Drafts(asks, c).value[i], asks[i], c)
    decreases asks
  {
    hide Resolved, DraftOf, Acceptable, WellTyped;
    if asks != [] {
      var n := |asks| - 1;
      DraftsAreTheirAsks(asks[..n], c);
      ResolvedIsItsAsk(n + 1, asks[n], c);
    }
  }

  /** A delegate call in the form the schema wants: words, and as many well-formed subtasks as a round may have. */
  ghost predicate IsProposal(input: Input, c: Controls) {
    && input.Asks? && !Text.Blank(input.reply)
    && 1 <= |input.subtasks| <= c.maxSubtasks
    && (forall i :: 0 <= i < |input.subtasks| ==> input.subtasks[i].kind in c.kinds && !Text.Blank(input.subtasks[i].prompt))
    && forall i, k :: 0 <= i < |input.subtasks| && input.subtasks[i].indexes.Some? && 0 <= k < |input.subtasks[i].indexes.value|
         ==> input.subtasks[i].indexes.value[k] >= 1
  }

  lemma ProposesExactly(input: Input, c: Controls)
    ensures Proposes(input, c) <==> IsProposal(input, c)
  {
    if IsProposal(input, c) {
      forall i | 0 <= i < |input.subtasks|
        ensures WellTyped(input.subtasks[i], c.kinds)
      {}
    }
    if Proposes(input, c) {
      forall i | 0 <= i < |input.subtasks|
        ensures input.subtasks[i].kind in c.kinds && !Text.Blank(input.subtasks[i].prompt)
        ensures forall k :: input.subtasks[i].indexes.Some? && 0 <= k < |input.subtasks[i].indexes.value|
                  ==> input.subtasks[i].indexes.value[k] >= 1
      {
        assert WellTyped(input.subtasks[i], c.kinds);
      }
    }
  }

  /** The inputs a tool was called with, in the order of its calls. */
  lemma {:induction false} InputsAreTheCalls(calls: seq<ToolCall>, tool: Tool)
    ensures Sublists.Selects(InputsTo(calls, tool), calls, (call: ToolCall) => call.tool == tool, (call: ToolCall) => call.input)
    decreases calls
  {
    var p, f := (call: ToolCall) => call.tool == tool, (call: ToolCall) => call.input;
    if calls == [] {
      Sublists.SelectsNothing(p, f);
    } else {
      var rest, last := calls[..|calls| - 1], calls[|calls| - 1];
      InputsAreTheCalls(rest, tool);
      Sublists.OneMore(InputsTo(rest, tool), rest, last, p, f);
      assert rest + [last] == calls;
    }
  }

  /** A delegation is decided exactly on the one acceptable call of a round that may delegate. */
  lemma DelegationDecided(calls: seq<ToolCall>, c: Controls)
    ensures EndingOf(calls, c).Decided? && EndingOf(calls, c).decision.Delegation? <==>
      && c.delegable && c.kinds != {} && |InputsTo(calls, Delegate)| == 1
      && IsProposal(InputsTo(calls, Delegate)[0], c)
      && forall i :: 0 <= i < |InputsTo(calls, Delegate)[0].subtasks| ==> Acceptable(InputsTo(calls, Delegate)[0].subtasks[i], c)
    ensures EndingOf(calls, c).Decided? && EndingOf(calls, c).decision.Delegation? ==>
      var asked, decision := InputsTo(calls, Delegate)[0], EndingOf(calls, c).decision;
      && decision.reply == Text.Trim(asked.reply) && decision.reply != ""
      && 1 <= |decision.drafts| <= c.maxSubtasks && |decision.drafts| == |asked.subtasks|
      && forall i :: 0 <= i < |asked.subtasks| ==> DraftOf(decision.drafts[i], asked.subtasks[i], c)
  {
    if |InputsTo(calls, Delegate)| == 1 {
      var input := InputsTo(calls, Delegate)[0];
      ProposesExactly(input, c);
      hide IsProposal;
      if OffersDelegate(c) && Proposes(input, c) {
        DraftsAreTheirAsks(input.subtasks, c);
        Text.TrimKeepsText(input.reply);
      }
    }
  }

  /** An answer is decided on the last reply of a round that did not call for delegation as well. */
  lemma AnswerDecided(calls: seq<ToolCall>, c: Controls)
    ensures
      var replies := InputsTo(calls, FinalReply);
      EndingOf(calls, c).Decided? && EndingOf(calls, c).decision.Answer? <==>
        && !(c.delegable && c.kinds != {} && |InputsTo(calls, Delegate)| > 0)
        && |replies| > 0 && replies[|replies| - 1].Reply? && !Text.Blank(replies[|replies| - 1].text)
    ensures EndingOf(calls, c).Decided? && EndingOf(calls, c).decision.Answer? ==>
      var replies := InputsTo(calls, FinalReply);
      EndingOf(calls, c).decision.text == Text.Trim(replies[|replies| - 1].text) && EndingOf(calls, c).decision.text != ""
  {
    var replies := InputsTo(calls, FinalReply);
    hide InputsTo;
    if |replies| > 0 && replies[|replies| - 1].Reply? {
      Text.TrimKeepsText(replies[|replies| - 1].text);
    }
  }

  // ---- what a refused call is told ------------------------------------------------------------------

  /** The refusal of an ask, told of the ask itself; `i` counts from one. */
  ghost predicate TrueOfAsk(why: Refusal, i: nat, a: Ask, c: Controls) {
    match why
    case RepeatedIndex(subtask, index) =>
      subtask == i && a.indexes.Some? && exists k, l :: 0 <= k < l < |a.indexes.value| && a.indexes.value[k] == a.indexes.value[l] == index
    case UnknownIndex(subtask, index) =>
      subtask == i && a.indexes.Some? && index in a.indexes.value && index > |c.catalog|
    case BadParams(subtask, words) =>
      subtask == i && c.validate(Text.Trim(a.kind), DefinedParams(a.params)) == Failure(words)
    case _ => false
  }

  /** The first ask that is not acceptable, and why. */
  ghost predicate FirstRefused(why: Refusal, asks: seq<Ask>, c: Controls, i: nat) {
    && i < |asks| && TrueOfAsk(why, i + 1, asks[i], c)
    && forall k :: 0 <= k < i ==> Acceptable(asks[k], c)
  }

  /** A refused call's words are true of the call. */
  ghost predicate TrueOfCalls(tool: Tool, input: Input, why: Refusal, calls: seq<ToolCall>, c: Controls) {
    var delegations, replies := InputsTo(calls, Delegate), InputsTo(calls, FinalReply);
    match tool
    case Delegate =>
      && |delegations| > 0 && input == delegations[0]
      && (|| (why == CalledTwice(|delegations|) && |delegations| > 1)
          || (why == BadInput && |delegations| == 1 && !IsProposal(input, c))
          || (|delegations| == 1 && IsProposal(input, c) && exists i: nat :: FirstRefused(why, input.subtasks, c, i)))
    case FinalReply =>
      && |replies| > 0 && input == replies[|replies| - 1] && why == BadInput
      && !(input.Reply? && !Text.Blank(input.text))
    case Work => false
  }

  lemma {:induction false} BadIndexIsBad(subtask: nat, indexes: seq<int>, from: nat, size: nat)
    requires from <= |indexes| && FirstBadIndex(subtask, indexes, from, size).Some?
    ensures
      var why := FirstBadIndex(subtask, indexes, from, size).value;
      || (why.RepeatedIndex? && why.subtask == subtask
          && exists k, l :: 0 <= k < l < |indexes| && indexes[k] == indexes[l] == why.index)
      || (why.UnknownIndex? && why.subtask == subtask && why.index in indexes && why.index > size)
    decreases |indexes| - from
  {
    if indexes[from] in indexes[..from] {
      var k :| 0 <= k < from && indexes[..from][k] == indexes[from];
      assert indexes[k] == indexes[from];
    } else if indexes[from] <= size {
      BadIndexIsBad(subtask, indexes, from + 1, size);
    }
  }

  lemma RefusedAsk(i: nat, a: Ask, c: Controls)
    requires WellTyped(a, c.kinds) && Resolved(i, a, c).Failure?
    ensures TrueOfAsk(Resolved(i, a, c).error, i, a, c)
  {
    if c.validate(Text.Trim(a.kind), DefinedParams(a.params)).Success? {
      BadIndexIsBad(i, a.indexes.value, 0, |c.catalog|);
    }
  }

  lemma LaterRefused(why: Refusal, asks: seq<Ask>, more: seq<Ask>, c: Controls, i: nat)
    requires FirstRefused(why, asks, c, i) && asks <= more
    ensures FirstRefused(why, more, c, i)
  {
    hide TrueOfAsk, Acceptable;
    assert forall k :: 0 <= k < |asks| ==> more[k] == asks[k];
  }

  lemma {:induction false} RefusedDrafts(asks: seq<Ask>, c: Controls)
    requires (forall i :: 0 <= i < |asks| ==> WellTyped(asks[i], c.kinds)) && Drafts(asks, c).Failure?
    ensures exists i: nat :: FirstRefused(Drafts(asks, c).error, asks, c, i)
    decreases asks
  {
    hide Resolved, TrueOfAsk, Acceptable, WellTyped;
    var n := |asks| - 1;
    var rest := asks[..n];
    if Drafts(rest, c).Failure? {
      RefusedDrafts(rest, c);
      var i: nat :| FirstRefused(Drafts(rest, c).error, rest, c, i);
      assert Drafts(asks, c).error == Drafts(rest, c).error;
      hide Drafts, FirstRefused;
      LaterRefused(Drafts(asks, c).error, rest, asks, c, i);
    } else {
      DraftsAreTheirAsks(rest, c);
      RefusedAsk(n + 1, asks[n], c);
      assert Drafts(asks, c).error == Resolved(n + 1, asks[n], c).error;
      hide Drafts;
      assert forall k :: 0 <= k < n ==> rest[k] == asks[k];
      assert FirstRefused(Drafts(asks, c).error, asks, c, n);
    }
  }

  /**
   * A round that is not decided either had no ending called at all, or its refusal
   * names a call that was made and says something true of it: the first thing that
   * is wrong with the first subtask that has anything wrong with it.
   */
  lemma RefusalsAreTrue(calls: seq<ToolCall>, c: Controls)
    ensures EndingOf(calls, c).NoEnding? <==>
      |InputsTo(calls, FinalReply)| == 0 && !(c.delegable && c.kinds != {} && |InputsTo(calls, Delegate)| > 0)
    ensures EndingOf(calls, c).Rejected? ==>
      TrueOfCalls(EndingOf(calls, c).tool, EndingOf(calls, c).input, EndingOf(calls, c).why, calls, c)
  {
    if |InputsTo(calls, Delegate)| == 1 {
      var input := InputsTo(calls, Delegate)[0];
      ProposesExactly(input, c);
      if Proposes(input, c) && Drafts(input.subtasks, c).Failure? {
        RefusedDrafts(input.subtasks, c);
      }
    }
    hide InputsTo, Drafts, IsProposal, FirstRefused;
  }

  // ---- provenance over the whole path -------------------------------------------------------------

  /** Where the k-th citable message stands in the history. */
  function Position(history: seq<Render.Message>, taskId: string, branches: seq<Render.Branch>, k: nat): (i: nat)
    requires k < |Render.Citable(history, taskId, branches)|
    ensures i < |history| && history[i] == Render.Citable(history, taskId, branches)[k]
    ensures Render.FateOf(history[i], taskId, branches).Marked?
    ensures |Render.Citable(history[..i], taskId, branches)| == k
    decreases history
  {
    var n := |history| - 1;
    if k < |Render.Citable(history[..n], taskId, branches)| then
      var i := Position(history[..n], taskId, branches, k);
      assert history[..n][..i] == history[..i];
      i
    else n
  }

  lemma {:induction false} CitableGrows(history: seq<Render.Message>, taskId: string, branches: seq<Render.Branch>, i: nat)
    requires i <= |history|
    ensures |Render.Citable(history[..i], taskId, branches)| <= |Render.Citable(history, taskId, branches)|
    decreases history
  {
    if i < |history| {
      assert history[..|history| - 1][..i] == history[..i];
      CitableGrows(history[..|history| - 1], taskId, branches, i);
    } else {
      assert history[..i] == history;
    }
  }

  lemma PositionsAscend(history: seq<Render.Message>, taskId: string, branches: seq<Render.Branch>, k: nat, l: nat)
    requires k < l < |Render.Citable(history, taskId, branches)|
    ensures Position(history, taskId, branches, k) < Position(history, taskId, branches, l)
  {
    var i, j := Position(history, taskId, branches, k), Position(history, taskId, branches, l);
    if j <= i {
      assert history[..i][..j] == history[..j];
      CitableGrows(history[..i], taskId, branches, j);
    }
  }

  /** References that are messages of the history, at ascending places of it. */
  ghost predicate InConversationOrder(references: seq<Subtasks.Reference>, places: seq<nat>, history: seq<Render.Message>) {
    && |places| == |references|
    && (forall k, l :: 0 <= k < l < |places| ==> places[k] < places[l])
    && forall k :: 0 <= k < |places| ==> places[k] < |history| && Render.CitedFrom(references[k], history[places[k]])
  }

  lemma SnapshotsAreHistory(history: seq<Render.Message>, taskId: string, branches: seq<Render.Branch>,
                            references: seq<Subtasks.Reference>, chosen: seq<int>)
    requires Snapshots(references, chosen, Render.Catalog(history, taskId, branches))
    ensures exists places :: InConversationOrder(references, places, history)
  {
    Render.CatalogIsTheCitable(history, taskId, branches);
    var places := PlacesOf(history, taskId, branches, chosen);
    forall k, l | 0 <= k < l < |places|
      ensures places[k] < places[l]
    {
      PositionsAscend(history, taskId, branches, chosen[k] - 1, chosen[l] - 1);
    }
    forall k | 0 <= k < |places|
      ensures places[k] < |history| && Render.CitedFrom(references[k], history[places[k]])
    {
      CitedAtItsPosition(history, taskId, branches, chosen[k] - 1);
    }
    assert InConversationOrder(references, places, history);
  }

  function PlacesOf(history: seq<Render.Message>, taskId: string, branches: seq<Render.Branch>, chosen: seq<int>): (places: seq<nat>)
    requires forall k :: 0 <= k < |chosen| ==> 1 <= chosen[k] <= |Render.Citable(history, taskId, branches)|
    ensures |places| == |chosen|
    ensures forall k :: 0 <= k < |chosen| ==> places[k] == Position(history, taskId, branches, chosen[k] - 1)
  {
    seq(|chosen|, k requires 0 <= k < |chosen| => Position(history, taskId, branches, chosen[k] - 1))
  }

  lemma CitedAtItsPosition(history: seq<Render.Message>, taskId: string, branches: seq<Render.Branch>, k: nat)
    requires k < |Render.Catalog(history, taskId, branches)| == |Render.Citable(history, taskId, branches)|
    ensures
      var i := Position(history, taskId, branches, k);
      i < |history| && Render.CitedFrom(Render.Catalog(history, taskId, branches)[k].reference, history[i])
  {
    Render.CatalogIsTheCitable(history, taskId, branches);
    Render.MarkedIsCited(history[Position(history, taskId, branches, k)], taskId, branches);
  }

  /**
   * Whatever the model emitted, each reference of each accepted draft is, word for
   * word, something said in the rendered conversation, no message twice and in the
   * conversation's order.
   */
  lemma ReferencesAreQuotations(history: seq<Render.Message>, taskId: string, branches: seq<Render.Branch>,
                                calls: seq<ToolCall>, c: Controls, i: nat)
    requires c.catalog == Render.Catalog(history, taskId, branches)
    requires EndingOf(calls, c).Decided? && EndingOf(calls, c).decision.Delegation?
    requires i < |EndingOf(calls, c).decision.drafts|
    ensures exists places :: InConversationOrder(EndingOf(calls, c).decision.drafts[i].references, places, history)
  {
    DelegationDecided(calls, c);
    var ask, draft := InputsTo(calls, Delegate)[0].subtasks[i], EndingOf(calls, c).decision.drafts[i];
    assert DraftOf(draft, ask, c);
    var chosen := if ask.indexes.Some? then Sorted(ask.indexes.value) else [];
    assert Snapshots(draft.references, chosen, c.catalog);
    SnapshotsAreHistory(history, taskId, branches, draft.references, chosen);
  }
}
