/**
 * What a round shows its model: the conversation, with each earlier delegation put
 * back as the call and the result it was, and each citable message marked with the
 * catalog index that selects it.
 */
module Render {
  import opened Wrappers
  import History
  import Subtasks
  import Text

  /** Who a Session message belongs to; only what a user or the assistant said is rendered. */
  datatype Speaker = Said(role: Subtasks.Role) | Aside

  datatype Part = TextPart(text: string) | OtherPart

  datatype Message = Message(id: string, speaker: Speaker, parts: seq<Part>)

  datatype Branch = Branch(id: nat, row: Subtasks.Row)

  datatype Proposal = Proposal(kind: string, prompt: string, params: map<string, string>)

  datatype Outcome = Outcome(subtaskId: nat, kind: string, status: Subtasks.Status, output: Option<string>)

  datatype ModelMessage =
    | Spoken(role: Subtasks.Role, content: string)
    | Call(text: Option<string>, callId: string, reply: string, proposals: seq<Proposal>)
    | Result(callId: string, outcomes: seq<Outcome>)

  /** A catalog entry: the index the model selects by, and what it selects. */
  datatype Entry = Entry(index: nat, reference: Subtasks.Reference)

  function PartsText(parts: seq<Part>): string
    decreases parts
  {
    if parts == [] then ""
    else (if parts[0].TextPart? then parts[0].text else "") + PartsText(parts[1..])
  }

  function SessionText(m: Message): string {
    PartsText(m.parts)
  }

  /** A generated summary, by its id's prefix. */
  predicate IsCompaction(m: Message) {
    History.COMPACTION <= m.id
  }

  predicate CatalogEligible(m: Message) {
    m.speaker.Said? && !IsCompaction(m) && !Text.Blank(SessionText(m))
  }

  // ---- one round's call and result -----------------------------------------------------

  const MAX_OUTPUT_CHARS: nat := 8000
  const TRUNCATED := "\n\U{2026}[truncated]"

  /** A branch's output, cut so that it fits together with the note that says so. */
  function Bounded(text: string): (s: string)
    ensures |s| <= MAX_OUTPUT_CHARS
    ensures |text| <= MAX_OUTPUT_CHARS ==> s == text
    ensures |text| > MAX_OUTPUT_CHARS ==> |s| == MAX_OUTPUT_CHARS && History.EndsWith(s, TRUNCATED)
  {
    if |text| <= MAX_OUTPUT_CHARS then text
    else
      var kept := text[..MAX_OUTPUT_CHARS - |TRUNCATED|];
      assert (kept + TRUNCATED)[|kept|..] == TRUNCATED;
      kept + TRUNCATED
  }

  function Joined(parts: seq<string>, separator: string): string
    decreases parts
  {
    if parts == [] then ""
    else if |parts| == 1 then parts[0]
    else parts[0] + separator + Joined(parts[1..], separator)
  }

  function OutputOf(r: Subtasks.Row): Option<string> {
    if r.status.Completed? then Some(Bounded(Joined(if r.results.Some? then r.results.value else [], "\n")))
    else if r.error.Some? && r.error.value != "" then Some(Bounded(r.error.value))
    else None
  }

  function Proposals(branches: seq<Branch>): seq<Proposal> {
    seq(|branches|, i requires 0 <= i < |branches| =>
      Proposal(branches[i].row.draft.kind, branches[i].row.draft.prompt, branches[i].row.draft.params))
  }

  function Outcomes(branches: seq<Branch>): seq<Outcome> {
    seq(|branches|, i requires 0 <= i < |branches| =>
      Outcome(branches[i].id, branches[i].row.draft.kind, branches[i].row.status, OutputOf(branches[i].row)))
  }

  function CallId(taskId: string, round: nat): string {
    "task_" + taskId + "_round_" + Text.Decimal(round) + "_delegate"
  }

  lemma CallIdInjective(taskId: string, m: nat, n: nat)
    requires CallId(taskId, m) == CallId(taskId, n)
    ensures m == n
  {
    var prefix := "task_" + taskId + "_round_";
    Text.CancelSuffix(prefix + Text.Decimal(m), prefix + Text.Decimal(n), "_delegate");
    Text.CancelPrefix(prefix, Text.Decimal(m), Text.Decimal(n));
    Text.DecimalInjective(m, n);
  }

  /** The pair; an acknowledgment that is gone, or empty, leaves the call without text. */
  function Pair(taskId: string, round: nat, reply: string, branches: seq<Branch>): seq<ModelMessage> {
    [Call(if reply == "" then None else Some(reply), CallId(taskId, round), reply, Proposals(branches)),
     Result(CallId(taskId, round), Outcomes(branches))]
  }

  // ---- the walk over the history ---------------------------------------------------------

  /** One round's branches, in the order they were listed. */
  function OfRound(branches: seq<Branch>, round: nat): seq<Branch>
    decreases branches
  {
    if branches == [] then []
    else OfRound(branches[..|branches| - 1], round) + (if branches[|branches| - 1].row.round == round then [branches[|branches| - 1]] else [])
  }

  function RoundsOf(branches: seq<Branch>): set<nat> {
    set i | 0 <= i < |branches| :: branches[i].row.round
  }

  /** The round that an id acknowledges, among the rounds that have branches. */
  function AckedRound(taskId: string, branches: seq<Branch>, id: string): Option<nat>
    decreases branches
  {
    if branches == [] then None
    else
      var last := branches[|branches| - 1].row.round;
      if History.AckId(taskId, last) == id then Some(last)
      else AckedRound(taskId, branches[..|branches| - 1], id)
  }

  /** What becomes of one message of the history. */
  datatype Fate = Unheard | Anchor(round: nat) | Dropped | Unmarked | Marked

  function FateOf(m: Message, taskId: string, branches: seq<Branch>): Fate {
    if m.speaker.Aside? then Unheard
    else
      match AckedRound(taskId, branches, m.id)
      case Some(round) => Anchor(round)
      case None =>
        match History.ParseAck(m.id)
        case Some(ack) => if ack.taskId == taskId then Dropped else Unmarked
        case None => if CatalogEligible(m) then Marked else Unmarked
  }

  function Mark(index: nat, text: string): string {
    "[ref " + Text.Decimal(index) + "] " + text
  }

  datatype View = View(messages: seq<ModelMessage>, catalog: seq<Entry>, anchored: set<nat>)

  function Step(v: View, m: Message, taskId: string, branches: seq<Branch>): View {
    match FateOf(m, taskId, branches)
    case Unheard => v
    case Dropped => v
    case Anchor(round) =>
      v.(messages := v.messages + Pair(taskId, round, SessionText(m), OfRound(branches, round)), anchored := v.anchored + {round})
    case Unmarked => v.(messages := v.messages + [Spoken(m.speaker.role, SessionText(m))])
    case Marked =>
      var index := |v.catalog| + 1;
      v.(messages := v.messages + [Spoken(m.speaker.role, Mark(index, SessionText(m)))],
         catalog := v.catalog + [Entry(index, Subtasks.Reference(m.speaker.role, SessionText(m)))])
  }

  function Walk(history: seq<Message>, taskId: string, branches: seq<Branch>): View
    decreases history
  {
    if history == [] then View([], [], {})
    else Step(Walk(history[..|history| - 1], taskId, branches), history[|history| - 1], taskId, branches)
  }

  /** Put a round into its place in an ascending list, once. */
  function Insert(round: nat, rounds: seq<nat>): seq<nat>
    decreases rounds
  {
    if rounds == [] || round < rounds[0] then [round] + rounds
    else if round == rounds[0] then rounds
    else [rounds[0]] + Insert(round, rounds[1..])
  }

  /** The rounds whose acknowledgment is no longer in the history, ascending. */
  function Orphans(branches: seq<Branch>, anchored: set<nat>): seq<nat>
    decreases branches
  {
    if branches == [] then []
    else
      var rest := Orphans(branches[..|branches| - 1], anchored);
      var last := branches[|branches| - 1].row.round;
      if last in anchored then rest else Insert(last, rest)
  }

  function OrphanPairs(taskId: string, branches: seq<Branch>, rounds: seq<nat>): seq<ModelMessage>
    decreases rounds
  {
    if rounds == [] then []
    else
      var n := |rounds| - 1;
      OrphanPairs(taskId, branches, rounds[..n]) + Pair(taskId, rounds[n], "", OfRound(branches, rounds[n]))
  }

  function Rendered(history: seq<Message>, taskId: string, branches: seq<Branch>): seq<ModelMessage> {
    var v := Walk(history, taskId, branches);
    v.messages + OrphanPairs(taskId, branches, Orphans(branches, v.anchored))
  }

  function Catalog(history: seq<Message>, taskId: string, branches: seq<Branch>): seq<Entry> {
    Walk(history, taskId, branches).catalog
  }

  // ---- the renderer as the source runs it ---------------------------------------------------

  method ByRound(branches: seq<Branch>) returns (rounds: map<nat, seq<Branch>>)
    ensures rounds.Keys == RoundsOf(branches)
    ensures forall r :: r in rounds ==> rounds[r] == OfRound(branches, r)
  {
    rounds := map[];
    for i := 0 to |branches|
      invariant rounds.Keys == RoundsOf(branches[..i])
      invariant forall r: nat :: OfRound(branches[..i], r) == if r in rounds then rounds[r] else []
    {
      assert branches[..i + 1][..i] == branches[..i];
      RoundsGrow(branches[..i + 1]);
      var branch := branches[i];
      if branch.row.round in rounds {
        rounds := rounds[branch.row.round := rounds[branch.row.round] + [branch]];
      } else {
        rounds := rounds[branch.row.round := [branch]];
      }
    }
    assert branches[..|branches|] == branches;
  }

  method RenderTurnMessages(history: seq<Message>, taskId: string, branches: seq<Branch>)
    returns (messages: seq<ModelMessage>, catalog: seq<Entry>)
    ensures messages == Rendered(history, taskId, branches)
    ensures catalog == Catalog(history, taskId, branches)
  {
    hide Step, Pair, Orphans, OfRound, AckedRound;
    var rounds := ByRound(branches);
    var ackIds := AckIds(taskId, branches);
    var v := View([], [], {});
    for i := 0 to |history|
      invariant v == Walk(history[..i], taskId, branches)
    {
      assert history[..i + 1][..i] == history[..i];
      v := RenderMessage(v, history[i], taskId, rounds, ackIds, branches);
    }
    assert history[..|history|] == history;
    messages, catalog := v.messages, v.catalog;
    var orphaned := Orphans(branches, v.anchored);
    OrphansAscend(branches, v.anchored);
    for i := 0 to |orphaned|
      invariant messages == v.messages + OrphanPairs(taskId, branches, orphaned[..i])
    {
      assert orphaned[..i + 1][..i] == orphaned[..i];
      assert orphaned[i] in orphaned;
      messages := messages + Pair(taskId, orphaned[i], "", rounds[orphaned[i]]);
    }
    assert orphaned[..|orphaned|] == orphaned;
  }

  /** The body of the loop over the history. */
  method RenderMessage(v: View, message: Message, taskId: string, rounds: map<nat, seq<Branch>>, ackIds: map<string, nat>,
                       ghost branches: seq<Branch>)
    returns (next: View)
    requires rounds.Keys == RoundsOf(branches) && forall r :: r in rounds ==> rounds[r] == OfRound(branches, r)
    requires forall id :: AckedRound(taskId, branches, id) == if id in ackIds then Some(ackIds[id]) else None
    ensures next == Step(v, message, taskId, branches)
  {
    if message.speaker.Aside? {
      return v;
    }
    var role, text := message.speaker.role, SessionText(message);
    AckedRoundExists(taskId, branches, message.id);
    if message.id in ackIds {
      var round := ackIds[message.id];
      return v.(messages := v.messages + Pair(taskId, round, text, rounds[round]), anchored := v.anchored + {round});
    }
    var ack := History.ParseAck(message.id);
    if ack.Some? {
      if ack.value.taskId != taskId {
        return v.(messages := v.messages + [Spoken(role, text)]);
      }
      return v;
    }
    if !CatalogEligible(message) {
      return v.(messages := v.messages + [Spoken(role, text)]);
    }
    var index := |v.catalog| + 1;
    next := v.(catalog := v.catalog + [Entry(index, Subtasks.Reference(role, text))],
               messages := v.messages + [Spoken(role, Mark(index, text))]);
  }

  method AckIds(taskId: string, branches: seq<Branch>) returns (ackIds: map<string, nat>)
    ensures forall id :: AckedRound(taskId, branches, id) == if id in ackIds then Some(ackIds[id]) else None
  {
    ackIds := map[];
    for i := 0 to |branches|
      invariant forall id :: AckedRound(taskId, branches[..i], id) == if id in ackIds then Some(ackIds[id]) else None
    {
      assert branches[..i + 1][..i] == branches[..i];
      ackIds := ackIds[History.AckId(taskId, branches[i].row.round) := branches[i].row.round];
    }
    assert branches[..|branches|] == branches;
  }

  // ---- proofs ---------------------------------------------------------------------------------

  lemma {:induction false} AckedRoundExists(taskId: string, branches: seq<Branch>, id: string)
    ensures AckedRound(taskId, branches, id).Some? <==> exists r :: r in RoundsOf(branches) && History.AckId(taskId, r) == id
    ensures AckedRound(taskId, branches, id).Some? ==>
      AckedRound(taskId, branches, id).value in RoundsOf(branches) && History.AckId(taskId, AckedRound(taskId, branches, id).value) == id
    decreases branches
  {
    if branches != [] {
      var n := |branches| - 1;
      AckedRoundExists(taskId, branches[..n], id);
      RoundsGrow(branches);
    }
  }

  lemma RoundsGrow(branches: seq<Branch>)
    requires branches != []
    ensures RoundsOf(branches) == RoundsOf(branches[..|branches| - 1]) + {branches[|branches| - 1].row.round}
  {
    var n := |branches| - 1;
    forall r | r in RoundsOf(branches)
      ensures r in RoundsOf(branches[..n]) + {branches[n].row.round}
    {
      var i :| 0 <= i < |branches| && branches[i].row.round == r;
      assert i < n ==> branches[..n][i] == branches[i];
    }
    assert forall i :: 0 <= i < n ==> branches[..n][i] == branches[i];
  }

  ghost predicate Ascending(rounds: seq<nat>) {
    forall i, j :: 0 <= i < j < |rounds| ==> rounds[i] < rounds[j]
  }

  lemma FirstAscends(first: nat, rest: seq<nat>)
    requires Ascending(rest) && forall r :: r in rest ==> first < r
    ensures Ascending([first] + rest)
  {
    var s := [first] + rest;
    forall i, j | 0 <= i < j < |s|
      ensures s[i] < s[j]
    {
      assert s[j] == rest[j - 1] && rest[j - 1] in rest;
    }
  }

  lemma {:induction false} InsertAscends(round: nat, rounds: seq<nat>)
    requires Ascending(rounds)
    ensures Ascending(Insert(round, rounds))
    ensures forall r :: r in Insert(round, rounds) <==> r == round || r in rounds
    decreases rounds
  {
    if rounds != [] {
      assert rounds == [rounds[0]] + rounds[1..];
      assert Ascending(rounds[1..]) && forall r :: r in rounds[1..] ==> rounds[0] < r;
      if round > rounds[0] {
        InsertAscends(round, rounds[1..]);
        hide Ascending;
        FirstAscends(rounds[0], Insert(round, rounds[1..]));
      }
    }
  }

  lemma {:induction false} OrphansAscend(branches: seq<Branch>, anchored: set<nat>)
    ensures Ascending(Orphans(branches, anchored))
    ensures forall r :: r in Orphans(branches, anchored) <==> r in RoundsOf(branches) && r !in anchored
    decreases branches
  {
    if branches != [] {
      var n := |branches| - 1;
      OrphansAscend(branches[..n], anchored);
      RoundsGrow(branches);
      InsertAscends(branches[n].row.round, Orphans(branches[..n], anchored));
    }
  }

  // ---- the calls and their results --------------------------------------------------------------

  /** A round's call at `k`, with its result right behind it. */
  ghost predicate PairAt(ms: seq<ModelMessage>, k: nat, taskId: string, round: nat, branches: seq<Branch>) {
    && k + 1 < |ms|
    && ms[k].Call? && ms[k].callId == CallId(taskId, round) && ms[k].proposals == Proposals(OfRound(branches, round))
    && ms[k + 1] == Result(CallId(taskId, round), Outcomes(OfRound(branches, round)))
  }

  /** Every call has its result behind it, every result its call in front of it, and each is some round's. */
  ghost predicate WellFormed(ms: seq<ModelMessage>, taskId: string, branches: seq<Branch>) {
    && (forall k :: 0 <= k < |ms| && ms[k].Call? ==> exists r :: r in RoundsOf(branches) && PairAt(ms, k, taskId, r, branches))
    && (forall k :: 0 <= k < |ms| && ms[k].Result? ==> k > 0 && ms[k - 1].Call?)
  }

  lemma WellFormedTogether(a: seq<ModelMessage>, b: seq<ModelMessage>, taskId: string, branches: seq<Branch>)
    requires WellFormed(a, taskId, branches) && WellFormed(b, taskId, branches)
    ensures WellFormed(a + b, taskId, branches)
  {
    var ms := a + b;
    forall k | 0 <= k < |ms| && ms[k].Call?
      ensures exists r :: r in RoundsOf(branches) && PairAt(ms, k, taskId, r, branches)
    {
      if k < |a| {
        var r :| r in RoundsOf(branches) && PairAt(a, k, taskId, r, branches);
        assert PairAt(ms, k, taskId, r, branches);
      } else {
        var r :| r in RoundsOf(branches) && PairAt(b, k - |a|, taskId, r, branches);
        assert PairAt(ms, k, taskId, r, branches);
      }
    }
    forall k | 0 <= k < |ms| && ms[k].Result?
      ensures k > 0 && ms[k - 1].Call?
    {
      if k >= |a| {
        assert b[k - |a|].Result?;
      }
    }
  }

  lemma PairWellFormed(taskId: string, round: nat, reply: string, branches: seq<Branch>)
    requires round in RoundsOf(branches)
    ensures WellFormed(Pair(taskId, round, reply, OfRound(branches, round)), taskId, branches)
  {
    assert PairAt(Pair(taskId, round, reply, OfRound(branches, round)), 0, taskId, round, branches);
  }

  lemma {:induction false} WalkWellFormed(history: seq<Message>, taskId: string, branches: seq<Branch>)
    ensures WellFormed(Walk(history, taskId, branches).messages, taskId, branches)
    decreases history
  {
    if history != [] {
      var n := |history| - 1;
      WalkWellFormed(history[..n], taskId, branches);
      var v, m := Walk(history[..n], taskId, branches), history[n];
      AckedRoundExists(taskId, branches, m.id);
      match FateOf(m, taskId, branches)
      case Anchor(round) =>
        PairWellFormed(taskId, round, SessionText(m), branches);
        WellFormedTogether(v.messages, Pair(taskId, round, SessionText(m), OfRound(branches, round)), taskId, branches);
      case Unmarked => WellFormedTogether(v.messages, [Spoken(m.speaker.role, SessionText(m))], taskId, branches);
      case Marked => WellFormedTogether(v.messages, [Spoken(m.speaker.role, Mark(|v.catalog| + 1, SessionText(m)))], taskId, branches);
      case _ =>
    }
  }

  lemma {:induction false} OrphanPairsWellFormed(taskId: string, branches: seq<Branch>, rounds: seq<nat>)
    requires forall r :: r in rounds ==> r in RoundsOf(branches)
    ensures WellFormed(OrphanPairs(taskId, branches, rounds), taskId, branches)
    decreases rounds
  {
    if rounds != [] {
      var n := |rounds| - 1;
      assert rounds[n] in rounds;
      OrphanPairsWellFormed(taskId, branches, rounds[..n]);
      PairWellFormed(taskId, rounds[n], "", branches);
      var last := Pair(taskId, rounds[n], "", OfRound(branches, rounds[n]));
      WellFormedTogether(OrphanPairs(taskId, branches, rounds[..n]), last, taskId, branches);
    }
  }

  lemma RenderedIsWellFormed(history: seq<Message>, taskId: string, branches: seq<Branch>)
    ensures WellFormed(Rendered(history, taskId, branches), taskId, branches)
  {
    var v := Walk(history, taskId, branches);
    WalkWellFormed(history, taskId, branches);
    OrphansAscend(branches, v.anchored);
    OrphanPairsWellFormed(taskId, branches, Orphans(branches, v.anchored));
    WellFormedTogether(v.messages, OrphanPairs(taskId, branches, Orphans(branches, v.anchored)), taskId, branches);
  }

  function Calls(ms: seq<ModelMessage>, id: string): nat
    decreases ms
  {
    if ms == [] then 0
    else Calls(ms[..|ms| - 1], id) + (if ms[|ms| - 1].Call? && ms[|ms| - 1].callId == id then 1 else 0)
  }

  lemma {:induction false} CallsAdd(a: seq<ModelMessage>, b: seq<ModelMessage>, id: string)
    ensures Calls(a + b, id) == Calls(a, id) + Calls(b, id)
    decreases b
  {
    if b == [] {
      assert a + b == a;
    } else {
      assert (a + b)[..|a + b| - 1] == a + b[..|b| - 1];
      CallsAdd(a, b[..|b| - 1], id);
    }
  }

  lemma PairCallsOnce(taskId: string, round: nat, reply: string, branches: seq<Branch>, r: nat)
    ensures Calls(Pair(taskId, round, reply, branches), CallId(taskId, r)) == if r == round then 1 else 0
  {
    var p := Pair(taskId, round, reply, branches);
    assert p[..1] == [p[0]] && [p[0]][..0] == [];
    assert Calls([p[0]], CallId(taskId, r)) == if p[0].callId == CallId(taskId, r) then 1 else 0;
    if CallId(taskId, round) == CallId(taskId, r) {
      CallIdInjective(taskId, round, r);
    }
  }

  ghost predicate DistinctIds(history: seq<Message>) {
    forall i, j :: 0 <= i < j < |history| ==> history[i].id != history[j].id
  }

  /** A said message of the history acknowledges the round. */
  ghost predicate Acknowledged(history: seq<Message>, taskId: string, round: nat) {
    exists i :: 0 <= i < |history| && history[i].speaker.Said? && history[i].id == History.AckId(taskId, round)
  }

  /** This message acknowledges the round. */
  predicate Acknowledges(m: Message, taskId: string, round: nat) {
    m.speaker.Said? && m.id == History.AckId(taskId, round)
  }

  lemma OneMoreAcknowledged(history: seq<Message>, m: Message, taskId: string, round: nat)
    ensures Acknowledged(history + [m], taskId, round) <==> Acknowledged(history, taskId, round) || Acknowledges(m, taskId, round)
  {
    assert forall i :: 0 <= i < |history| ==> (history + [m])[i] == history[i];
    assert (history + [m])[|history|] == m;
  }

  /** One step anchors the round that its message acknowledges, if the round has rows. */
  lemma StepAnchors(v: View, m: Message, taskId: string, branches: seq<Branch>, round: nat)
    ensures round in Step(v, m, taskId, branches).anchored
      <==> round in v.anchored || (round in RoundsOf(branches) && Acknowledges(m, taskId, round))
  {
    AckedRoundExists(taskId, branches, m.id);
    if Acknowledges(m, taskId, round) {
      FateOfAcknowledgment(m, taskId, branches, taskId, round);
    }
  }

  lemma {:induction false} AnchoredExactly(history: seq<Message>, taskId: string, branches: seq<Branch>, round: nat)
    ensures round in Walk(history, taskId, branches).anchored
      <==> round in RoundsOf(branches) && Acknowledged(history, taskId, round)
    decreases history
  {
    hide Step, RoundsOf, Acknowledges;
    if history != [] {
      var n := |history| - 1;
      AnchoredExactly(history[..n], taskId, branches, round);
      StepAnchors(Walk(history[..n], taskId, branches), history[n], taskId, branches, round);
      OneMoreAcknowledged(history[..n], history[n], taskId, round);
      assert history[..n] + [history[n]] == history;
    }
  }

  lemma {:induction false} WalkCallsOnce(history: seq<Message>, taskId: string, branches: seq<Branch>, r: nat)
    requires DistinctIds(history)
    ensures Calls(Walk(history, taskId, branches).messages, CallId(taskId, r)) == if r in Walk(history, taskId, branches).anchored then 1 else 0
    decreases history
  {
    if history != [] {
      var n := |history| - 1;
      var v, m := Walk(history[..n], taskId, branches), history[n];
      WalkCallsOnce(history[..n], taskId, branches, r);
      AckedRoundExists(taskId, branches, m.id);
      match FateOf(m, taskId, branches)
      case Anchor(round) =>
        CallsAdd(v.messages, Pair(taskId, round, SessionText(m), OfRound(branches, round)), CallId(taskId, r));
        PairCallsOnce(taskId, round, SessionText(m), OfRound(branches, round), r);
        AnchoredExactly(history[..n], taskId, branches, round);
      case Unmarked => CallsAdd(v.messages, [Spoken(m.speaker.role, SessionText(m))], CallId(taskId, r));
      case Marked => CallsAdd(v.messages, [Spoken(m.speaker.role, Mark(|v.catalog| + 1, SessionText(m)))], CallId(taskId, r));
      case _ =>
    }
  }

  lemma {:induction false} OrphanCallsOnce(taskId: string, branches: seq<Branch>, rounds: seq<nat>, r: nat)
    requires Ascending(rounds)
    ensures Calls(OrphanPairs(taskId, branches, rounds), CallId(taskId, r)) == if r in rounds then 1 else 0
    decreases rounds
  {
    if rounds != [] {
      var n := |rounds| - 1;
      OrphanCallsOnce(taskId, branches, rounds[..n], r);
      CallsAdd(OrphanPairs(taskId, branches, rounds[..n]), Pair(taskId, rounds[n], "", OfRound(branches, rounds[n])), CallId(taskId, r));
      PairCallsOnce(taskId, rounds[n], "", OfRound(branches, rounds[n]), r);
      assert r in rounds <==> r in rounds[..n] || r == rounds[n];
      assert rounds[n] !in rounds[..n];
    }
  }

  /** With distinct message ids each delegated round is called exactly once, and no other round is. */
  lemma EachRoundIsCalledOnce(history: seq<Message>, taskId: string, branches: seq<Branch>, r: nat)
    requires DistinctIds(history)
    ensures Calls(Rendered(history, taskId, branches), CallId(taskId, r)) == if r in RoundsOf(branches) then 1 else 0
  {
    var v := Walk(history, taskId, branches);
    var orphans := Orphans(branches, v.anchored);
    WalkCallsOnce(history, taskId, branches, r);
    AnchoredExactly(history, taskId, branches, r);
    OrphansAscend(branches, v.anchored);
    OrphanCallsOnce(taskId, branches, orphans, r);
    CallsAdd(v.messages, OrphanPairs(taskId, branches, orphans), CallId(taskId, r));
  }

  lemma {:induction false} WalkPrefix(history: seq<Message>, taskId: string, branches: seq<Branch>, i: nat)
    requires i <= |history|
    ensures Walk(history[..i], taskId, branches).messages <= Walk(history, taskId, branches).messages
    ensures Walk(history[..i], taskId, branches).catalog <= Walk(history, taskId, branches).catalog
    decreases history
  {
    if i == |history| {
      assert history[..i] == history;
    } else {
      assert history[..|history| - 1][..i] == history[..i];
      WalkPrefix(history[..|history| - 1], taskId, branches, i);
    }
  }

  /** A round's pair stands where its acknowledgment stood, with the acknowledgment's text. */
  lemma PairStandsAtItsAcknowledgment(history: seq<Message>, taskId: string, branches: seq<Branch>, i: nat, round: nat)
    requires i < |history| && history[i].speaker.Said?
    requires round in RoundsOf(branches) && history[i].id == History.AckId(taskId, round)
    ensures
      Walk(history[..i], taskId, branches).messages + Pair(taskId, round, SessionText(history[i]), OfRound(branches, round))
        <= Rendered(history, taskId, branches)
  {
    FateOfAcknowledgment(history[i], taskId, branches, taskId, round);
    assert history[..i + 1][..i] == history[..i];
    WalkPrefix(history, taskId, branches, i + 1);
  }

  /** The rounds nothing in the history acknowledges come last, in ascending order, without text. */
  lemma UnacknowledgedRoundsComeLast(history: seq<Message>, taskId: string, branches: seq<Branch>)
    ensures exists rounds ::
      && Ascending(rounds)
      && (forall r :: r in rounds <==> r in RoundsOf(branches) && !Acknowledged(history, taskId, r))
      && Rendered(history, taskId, branches) == Walk(history, taskId, branches).messages + OrphanPairs(taskId, branches, rounds)
  {
    var v := Walk(history, taskId, branches);
    OrphansAscend(branches, v.anchored);
    forall r
      ensures r in v.anchored <==> r in RoundsOf(branches) && Acknowledged(history, taskId, r)
    {
      AnchoredExactly(history, taskId, branches, r);
    }
  }

  // ---- the conversation and its catalog ------------------------------------------------------------

  /** What becomes of any acknowledgment, this Task's or another's. */
  lemma FateOfAcknowledgment(m: Message, taskId: string, branches: seq<Branch>, ackTask: string, round: nat)
    requires m.speaker.Said? && m.id == History.AckId(ackTask, round)
    ensures FateOf(m, taskId, branches) ==
      if ackTask == taskId && round in RoundsOf(branches) then Anchor(round)
      else if History.Capturable(ackTask) then (if ackTask == taskId then Dropped else Unmarked)
      else if CatalogEligible(m) then Marked
      else Unmarked
  {
    AckedRoundExists(taskId, branches, m.id);
    History.AckRoundTrip(ackTask, round);
    forall r | History.AckId(taskId, r) == m.id
      ensures ackTask == taskId && r == round
    {
      History.AckIdInjective(taskId, r, ackTask, round);
    }
  }

  /** The messages of the history that are rendered as speech, in order. */
  function Heard(history: seq<Message>, taskId: string, branches: seq<Branch>): seq<Message>
    decreases history
  {
    if history == [] then []
    else
      var n := |history| - 1;
      Heard(history[..n], taskId, branches)
      + (if FateOf(history[n], taskId, branches).Marked? || FateOf(history[n], taskId, branches).Unmarked? then [history[n]] else [])
  }

  /** Those of them that can be cited. */
  function Citable(history: seq<Message>, taskId: string, branches: seq<Branch>): seq<Message>
    decreases history
  {
    if history == [] then []
    else
      var n := |history| - 1;
      Citable(history[..n], taskId, branches) + (if FateOf(history[n], taskId, branches).Marked? then [history[n]] else [])
  }

  function Speech(ms: seq<ModelMessage>): seq<ModelMessage>
    decreases ms
  {
    if ms == [] then []
    else Speech(ms[..|ms| - 1]) + (if ms[|ms| - 1].Spoken? then [ms[|ms| - 1]] else [])
  }

  lemma {:induction false} SpeechAdds(a: seq<ModelMessage>, b: seq<ModelMessage>)
    ensures Speech(a + b) == Speech(a) + Speech(b)
    decreases b
  {
    if b == [] {
      assert a + b == a;
    } else {
      assert (a + b)[..|a + b| - 1] == a + b[..|b| - 1];
      SpeechAdds(a, b[..|b| - 1]);
    }
  }

  lemma PairIsSilent(taskId: string, round: nat, reply: string, branches: seq<Branch>)
    ensures Speech(Pair(taskId, round, reply, branches)) == []
  {
    var p := Pair(taskId, round, reply, branches);
    assert p[..1] == [p[0]] && [p[0]][..0] == [];
    assert Speech([p[0]]) == [];
  }

  lemma {:induction false} OrphansAreSilent(taskId: string, branches: seq<Branch>, rounds: seq<nat>)
    ensures Speech(OrphanPairs(taskId, branches, rounds)) == []
    decreases rounds
  {
    if rounds != [] {
      var n := |rounds| - 1;
      OrphansAreSilent(taskId, branches, rounds[..n]);
      SpeechAdds(OrphanPairs(taskId, branches, rounds[..n]), Pair(taskId, rounds[n], "", OfRound(branches, rounds[n])));
      PairIsSilent(taskId, rounds[n], "", OfRound(branches, rounds[n]));
    }
  }

  /** The k-th spoken message is the k-th heard one, marked with its place among the citable ones when it is citable. */
  ghost predicate Renders(spoken: ModelMessage, heard: seq<Message>, k: nat, taskId: string, branches: seq<Branch>)
    requires k < |heard|
  {
    && spoken.Spoken?
    && heard[k].speaker == Said(spoken.role)
    && spoken.content ==
       if FateOf(heard[k], taskId, branches).Marked?
       then "[ref " + Text.Decimal(|Citable(heard[..k], taskId, branches)| + 1) + "] " + SessionText(heard[k])
       else SessionText(heard[k])
  }

  lemma {:induction false} CitableIsHeard(history: seq<Message>, taskId: string, branches: seq<Branch>)
    ensures Citable(Heard(history, taskId, branches), taskId, branches) == Citable(history, taskId, branches)
    decreases history
  {
    if history != [] {
      var n := |history| - 1;
      CitableIsHeard(history[..n], taskId, branches);
      var heard := Heard(history[..n], taskId, branches);
      assert (heard + [history[n]])[..|heard|] == heard;
      assert heard + [] == heard;
    }
  }

  /** The spoken messages are the heard ones, each rendered as it should be. */
  ghost predicate RendersAll(speech: seq<ModelMessage>, heard: seq<Message>, taskId: string, branches: seq<Branch>) {
    |speech| == |heard| && forall k :: 0 <= k < |heard| ==> Renders(speech[k], heard, k, taskId, branches)
  }

  lemma OneMoreHeard(speech: seq<ModelMessage>, heard: seq<Message>, spoken: ModelMessage, m: Message, taskId: string, branches: seq<Branch>)
    requires RendersAll(speech, heard, taskId, branches)
    requires Renders(spoken, heard + [m], |heard|, taskId, branches)
    ensures RendersAll(speech + [spoken], heard + [m], taskId, branches)
  {
    forall k | 0 <= k < |heard|
      ensures Renders((speech + [spoken])[k], heard + [m], k, taskId, branches)
    {
      assert (heard + [m])[..k] == heard[..k];
      assert Renders(speech[k], heard, k, taskId, branches);
    }
  }

  /** One message's step, for a message that is spoken. */
  lemma SpokenStep(v: View, heard: seq<Message>, m: Message, taskId: string, branches: seq<Branch>)
    requires RendersAll(Speech(v.messages), heard, taskId, branches)
    requires |v.catalog| == |Citable(heard, taskId, branches)|
    requires FateOf(m, taskId, branches).Marked? || FateOf(m, taskId, branches).Unmarked?
    ensures RendersAll(Speech(Step(v, m, taskId, branches).messages), heard + [m], taskId, branches)
  {
    hide FateOf, Citable, SessionText, RendersAll, Speech;
    HeardIsSaid(m, taskId, branches);
    var spoken := Spoken(m.speaker.role,
      if FateOf(m, taskId, branches).Marked? then Mark(|v.catalog| + 1, SessionText(m)) else SessionText(m));
    assert Step(v, m, taskId, branches).messages == v.messages + [spoken];
    SpeechOfOne(spoken);
    SpeechAdds(v.messages, [spoken]);
    assert (heard + [m])[..|heard|] == heard;
    OneMoreHeard(Speech(v.messages), heard, spoken, m, taskId, branches);
  }

  lemma HeardIsSaid(m: Message, taskId: string, branches: seq<Branch>)
    requires FateOf(m, taskId, branches).Marked? || FateOf(m, taskId, branches).Unmarked?
    ensures m.speaker.Said?
  {}

  lemma SpeechOfOne(spoken: ModelMessage)
    requires spoken.Spoken?
    ensures Speech([spoken]) == [spoken]
  {
    assert [spoken][..0] == [] && Speech([]) == [];
  }

  /** Nothing said is lost, reordered or repeated. */
  lemma {:induction false} WalkSpeech(history: seq<Message>, taskId: string, branches: seq<Branch>)
    ensures RendersAll(Speech(Walk(history, taskId, branches).messages), Heard(history, taskId, branches), taskId, branches)
    decreases history
  {
    if history != [] {
      var n := |history| - 1;
      var v, m, heard := Walk(history[..n], taskId, branches), history[n], Heard(history[..n], taskId, branches);
      WalkSpeech(history[..n], taskId, branches);
      match FateOf(m, taskId, branches)
      case Anchor(round) =>
        SpeechAdds(v.messages, Pair(taskId, round, SessionText(m), OfRound(branches, round)));
        PairIsSilent(taskId, round, SessionText(m), OfRound(branches, round));
        assert heard + [] == heard;
      case Unheard => assert heard + [] == heard;
      case Dropped => assert heard + [] == heard;
      case _ =>
        CatalogIsTheCitable(history[..n], taskId, branches);
        CitableIsHeard(history[..n], taskId, branches);
        SpokenStep(v, heard, m, taskId, branches);
    }
  }

  /** The catalog lists the citable messages, numbered from one, verbatim. */
  lemma {:induction false} CatalogIsTheCitable(history: seq<Message>, taskId: string, branches: seq<Branch>)
    ensures
      var catalog, citable := Catalog(history, taskId, branches), Citable(history, taskId, branches);
      && |catalog| == |citable|
      && forall k :: 0 <= k < |catalog| ==>
           citable[k].speaker.Said? && catalog[k] == Entry(k + 1, Subtasks.Reference(citable[k].speaker.role, SessionText(citable[k])))
    decreases history
  {
    if history != [] {
      CatalogIsTheCitable(history[..|history| - 1], taskId, branches);
    }
  }

  /**
   * Speech and catalog agree: the spoken messages are exactly the heard ones in
   * their order, and entry k of the catalog is the k-th marked one among them.
   */
  lemma SpeechAndCatalogAgree(history: seq<Message>, taskId: string, branches: seq<Branch>)
    ensures
      var speech, heard := Speech(Rendered(history, taskId, branches)), Heard(history, taskId, branches);
      && RendersAll(speech, heard, taskId, branches)
      && |Catalog(history, taskId, branches)| == |Citable(heard, taskId, branches)|
      && (forall k :: 0 <= k < |Catalog(history, taskId, branches)| ==>
           var m := Citable(heard, taskId, branches)[k];
           m.speaker.Said? && Catalog(history, taskId, branches)[k] == Entry(k + 1, Subtasks.Reference(m.speaker.role, SessionText(m))))
  {
    var v := Walk(history, taskId, branches);
    WalkSpeech(history, taskId, branches);
    OrphansAreSilent(taskId, branches, Orphans(branches, v.anchored));
    SpeechAdds(v.messages, OrphanPairs(taskId, branches, Orphans(branches, v.anchored)));
    CatalogIsTheCitable(history, taskId, branches);
    CitableIsHeard(history, taskId, branches);
  }

  /** An entry's source: what somebody said, that is neither a summary nor an acknowledgment. */
  ghost predicate CitedFrom(reference: Subtasks.Reference, m: Message) {
    && m.speaker == Said(reference.role) && SessionText(m) == reference.text
    && !IsCompaction(m)
    && !Text.Blank(reference.text)
    && forall t, r :: History.Capturable(t) ==> m.id != History.AckId(t, r)
  }

  lemma {:induction false} CitableProvenance(history: seq<Message>, taskId: string, branches: seq<Branch>, k: nat)
    requires k < |Citable(history, taskId, branches)|
    ensures exists i ::
      0 <= i < |history| && history[i] == Citable(history, taskId, branches)[k] && FateOf(history[i], taskId, branches).Marked?
    decreases history
  {
    var n := |history| - 1;
    if k < |Citable(history[..n], taskId, branches)| {
      CitableProvenance(history[..n], taskId, branches, k);
    }
  }

  lemma MarkedIsCited(m: Message, taskId: string, branches: seq<Branch>)
    requires FateOf(m, taskId, branches).Marked?
    ensures CitedFrom(Subtasks.Reference(m.speaker.role, SessionText(m)), m)
  {
    forall t, r | History.Capturable(t)
      ensures m.id != History.AckId(t, r)
    {
      if m.id == History.AckId(t, r) {
        FateOfAcknowledgment(m, taskId, branches, t, r);
      }
    }
  }

  /** Every catalog entry is a verbatim message of the history, and never scaffolding. */
  lemma CatalogProvenance(history: seq<Message>, taskId: string, branches: seq<Branch>, k: nat)
    requires k < |Catalog(history, taskId, branches)|
    ensures exists i :: 0 <= i < |history| && CitedFrom(Catalog(history, taskId, branches)[k].reference, history[i])
  {
    CatalogIsTheCitable(history, taskId, branches);
    CitableProvenance(history, taskId, branches, k);
    var i :| 0 <= i < |history| && history[i] == Citable(history, taskId, branches)[k] && FateOf(history[i], taskId, branches).Marked?;
    MarkedIsCited(history[i], taskId, branches);
  }
}
