/**
 * What the model is shown of a round and of a message, told from the rows and the
 * history alone.
 */
module Shown {
  import opened Wrappers
  import opened Render
  import History
  import Sublists
  import Text

  // ---- one round ------------------------------------------------------------------------------

  /** Exactly the round's branches, in the order they were listed. */
  ghost predicate IsRound(listed: seq<Branch>, branches: seq<Branch>, round: nat) {
    Sublists.Selects(listed, branches, (b: Branch) => b.row.round == round, (b: Branch) => b)
  }

  lemma {:induction false} RoundIsListed(branches: seq<Branch>, round: nat)
    ensures IsRound(OfRound(branches, round), branches, round)
    decreases branches
  {
    var p, f := (b: Branch) => b.row.round == round, (b: Branch) => b;
    if branches == [] {
      Sublists.SelectsNothing(p, f);
    } else {
      var rest, last := branches[..|branches| - 1], branches[|branches| - 1];
      RoundIsListed(rest, round);
      Sublists.OneMore(OfRound(rest, round), rest, last, p, f);
      assert rest + [last] == branches;
    }
  }

  /** A text as the model gets it: whole, or as much of it as fits in front of the note. */
  ghost predicate Fits(s: string, text: string) {
    if |text| <= 8000 then s == text
    else |s| == 8000 && exists n :: 0 <= n <= |text| && s == text[..n] + "\n\U{2026}[truncated]"
  }

  lemma BoundedFits(text: string)
    ensures Fits(Bounded(text), text)
  {
    if |text| > 8000 {
      var n := 8000 - |TRUNCATED|;
      assert Bounded(text) == text[..n] + TRUNCATED;
    }
  }

  /** Parts are joined by the separator, which stands between any two of them. */
  lemma {:induction false} JoinedOnTheEnd(parts: seq<string>, last: string, separator: string)
    ensures Joined([last], separator) == last
    ensures parts != [] ==> Joined(parts + [last], separator) == Joined(parts, separator) + separator + last
    decreases parts
  {
    if |parts| == 1 {
      assert (parts + [last])[1..] == [last];
    } else if |parts| > 1 {
      assert (parts + [last])[1..] == parts[1..] + [last];
      JoinedOnTheEnd(parts[1..], last, separator);
    }
  }

  ghost predicate ProposesRow(p: Proposal, b: Branch) {
    p.kind == b.row.draft.kind && p.prompt == b.row.draft.prompt && p.params == b.row.draft.params
  }

  /** A completed row shows its results, any other the error it has, if it has one. */
  ghost predicate ReportsRow(o: Outcome, b: Branch) {
    && o.subtaskId == b.id && o.kind == b.row.draft.kind && o.status == b.row.status
    && if b.row.status.Completed? then
         o.output.Some? && Fits(o.output.value, if b.row.results.Some? then Joined(b.row.results.value, "\n") else "")
       else if b.row.error.Some? && |b.row.error.value| > 0 then
         o.output.Some? && Fits(o.output.value, b.row.error.value)
       else o.output.None?
  }

  /** The call as it was made, with its acknowledgment's text if it has any, and its result behind it. */
  ghost predicate ShowsRows(call: ModelMessage, result: ModelMessage, id: string, listed: seq<Branch>) {
    && call.Call? && result.Result? && call.callId == result.callId == id
    && call.text == (if |call.reply| == 0 then None else Some(call.reply))
    && |call.proposals| == |result.outcomes| == |listed|
    && forall i :: 0 <= i < |listed| ==> ProposesRow(call.proposals[i], listed[i]) && ReportsRow(result.outcomes[i], listed[i])
  }

  lemma OutcomesReport(listed: seq<Branch>, i: nat)
    requires i < |listed|
    ensures ReportsRow(Outcomes(listed)[i], listed[i])
  {
    var r := listed[i].row;
    BoundedFits(Joined(if r.results.Some? then r.results.value else [], "\n"));
    if r.error.Some? {
      BoundedFits(r.error.value);
    }
  }

  lemma PairShowsRows(taskId: string, round: nat, reply: string, listed: seq<Branch>)
    ensures
      var p := Pair(taskId, round, reply, listed);
      |p| == 2 && ShowsRows(p[0], p[1], CallId(taskId, round), listed) && p[0].reply == reply
  {
    forall i | 0 <= i < |listed|
      ensures ReportsRow(Outcomes(listed)[i], listed[i])
    {
      OutcomesReport(listed, i);
    }
    hide ReportsRow, Outcomes;
  }

  /** The messages at these two places are some round's call and result. */
  ghost predicate ShowsRound(ms: seq<ModelMessage>, k: nat, taskId: string, branches: seq<Branch>, round: nat) {
    k + 1 < |ms| && exists listed :: IsRound(listed, branches, round) && ShowsRows(ms[k], ms[k + 1], CallId(taskId, round), listed)
  }

  /** Every call the model is shown is a round's, with a proposal and an outcome for each of its rows and no other. */
  lemma CallsShowTheirRounds(history: seq<Message>, taskId: string, branches: seq<Branch>, k: nat)
    requires k < |Rendered(history, taskId, branches)| && Rendered(history, taskId, branches)[k].Call?
    ensures exists round :: ShowsRound(Rendered(history, taskId, branches), k, taskId, branches, round)
  {
    hide Rendered, IsRound, ShowsRows;
    var ms := Rendered(history, taskId, branches);
    RenderedIsWellFormed(history, taskId, branches);
    CallsShowText(history, taskId, branches, k);
    var round :| PairAt(ms, k, taskId, round, branches);
    RoundIsListed(branches, round);
    SamePair(ms, k, taskId, round, branches);
    assert IsRound(OfRound(branches, round), branches, round)
        && ShowsRows(ms[k], ms[k + 1], CallId(taskId, round), OfRound(branches, round));
    assert ShowsRound(ms, k, taskId, branches, round);
  }

  lemma SamePair(ms: seq<ModelMessage>, k: nat, taskId: string, round: nat, branches: seq<Branch>)
    requires k + 1 < |ms| && ms[k].Call? && ms[k].text == (if ms[k].reply == "" then None else Some(ms[k].reply))
    requires PairAt(ms, k, taskId, round, branches)
    ensures ShowsRows(ms[k], ms[k + 1], CallId(taskId, round), OfRound(branches, round))
  {
    PairShowsRows(taskId, round, ms[k].reply, OfRound(branches, round));
    assert [ms[k], ms[k + 1]] == Pair(taskId, round, ms[k].reply, OfRound(branches, round));
  }

  ghost predicate TextIsReply(ms: seq<ModelMessage>) {
    forall k :: 0 <= k < |ms| && ms[k].Call? ==> ms[k].text == (if ms[k].reply == "" then None else Some(ms[k].reply))
  }

  lemma {:induction false} WalkShowsText(history: seq<Message>, taskId: string, branches: seq<Branch>)
    ensures TextIsReply(Walk(history, taskId, branches).messages)
    decreases history
  {
    if history != [] {
      WalkShowsText(history[..|history| - 1], taskId, branches);
    }
  }

  lemma {:induction false} OrphansShowText(taskId: string, branches: seq<Branch>, rounds: seq<nat>)
    ensures TextIsReply(OrphanPairs(taskId, branches, rounds))
    decreases rounds
  {
    if rounds != [] {
      OrphansShowText(taskId, branches, rounds[..|rounds| - 1]);
    }
  }

  lemma CallsShowText(history: seq<Message>, taskId: string, branches: seq<Branch>, k: nat)
    requires k < |Rendered(history, taskId, branches)| && Rendered(history, taskId, branches)[k].Call?
    ensures
      var m := Rendered(history, taskId, branches)[k];
      m.text == (if m.reply == "" then None else Some(m.reply))
  {
    WalkShowsText(history, taskId, branches);
    OrphansShowText(taskId, branches, Orphans(branches, Walk(history, taskId, branches).anchored));
  }

  // ---- one message ------------------------------------------------------------------------------

  /** A message's text is the text of its text parts, in order. */
  lemma {:induction false} TextOnTheEnd(parts: seq<Part>, last: Part)
    ensures PartsText([]) == ""
    ensures PartsText(parts + [last]) == PartsText(parts) + (if last.TextPart? then last.text else "")
    decreases parts
  {
    if parts == [] {
      assert parts + [last] == [last] && [last][1..] == [];
    } else {
      var all, first := parts + [last], if parts[0].TextPart? then parts[0].text else "";
      assert all[0] == parts[0] && all[1..] == parts[1..] + [last];
      assert PartsText(all) == first + PartsText(parts[1..] + [last]) && PartsText(parts) == first + PartsText(parts[1..]);
      TextOnTheEnd(parts[1..], last);
      hide PartsText;
    }
  }

  ghost predicate HasText(s: string) {
    exists i :: 0 <= i < |s| && !Text.IsSpace(s[i])
  }

  ghost predicate IsAckOf(id: string, taskId: string, digits: string) {
    && id == "task:" + taskId + ":round:" + digits + ":ack"
    && digits != "" && (forall i :: 0 <= i < |digits| ==> '0' <= digits[i] <= '9')
  }

  /** An acknowledgment of a Task whose id has no line break, by the form of its id. */
  ghost predicate IsAck(id: string, taskId: string) {
    History.Capturable(taskId) && exists digits :: IsAckOf(id, taskId, digits)
  }

  /**
   * What becomes of any message: an aside is not heard; this Task's acknowledgments
   * become their rounds' calls, or are dropped when there are no rows; another Task's
   * are said without a mark; and what else has text, and is no summary, can be cited.
   */
  lemma FateExactly(m: Message, taskId: string, branches: seq<Branch>)
    ensures FateOf(m, taskId, branches).Unheard? <==> !m.speaker.Said?
    ensures forall round :: FateOf(m, taskId, branches) == Anchor(round) <==>
      m.speaker.Said? && round in RoundsOf(branches) && m.id == History.AckId(taskId, round)
    ensures FateOf(m, taskId, branches).Marked? <==>
      && m.speaker.Said? && (forall round :: round in RoundsOf(branches) ==> m.id != History.AckId(taskId, round))
      && (forall t :: !IsAck(m.id, t)) && !(History.COMPACTION <= m.id) && HasText(SessionText(m))
    ensures FateOf(m, taskId, branches).Dropped? <==>
      && m.speaker.Said? && IsAck(m.id, taskId)
      && forall round :: round in RoundsOf(branches) ==> m.id != History.AckId(taskId, round)
  {
    AckedRoundExists(taskId, branches, m.id);
    forall round | round in RoundsOf(branches) && m.id == History.AckId(taskId, round)
      ensures AckedRound(taskId, branches, m.id) == Some(round)
    {
      History.AckIdInjective(taskId, round, taskId, AckedRound(taskId, branches, m.id).value);
    }
    hide AckedRound, History.ParseAck, RoundsOf, History.AckId;
    forall t
      ensures IsAck(m.id, t) <==> History.ParseAck(m.id).Some? && History.ParseAck(m.id).value.taskId == t
    {
      AckIsParsed(m.id, t);
    }
    if History.ParseAck(m.id).Some? {
      assert IsAck(m.id, History.ParseAck(m.id).value.taskId);
    }
    hide IsAck;
  }

  lemma AckIsParsed(id: string, t: string)
    ensures IsAck(id, t) <==> History.ParseAck(id).Some? && History.ParseAck(id).value.taskId == t
  {
    History.ParseIsThePattern(id, "", "");
    if IsAck(id, t) {
      var digits :| IsAckOf(id, t, digits);
      History.ParseIsThePattern(id, t, digits);
    }
    if History.ParseAck(id).Some? && History.ParseAck(id).value.taskId == t {
      var digits :| History.Matches(id, t, digits) && Text.Value(digits) == History.ParseAck(id).value.round;
      assert IsAckOf(id, t, digits);
    }
  }
}
