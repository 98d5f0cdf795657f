/** Where the attempt ladder meets the protocol: a round's inference is always one the protocol allows. */
module Rounds {
  import Agent
  import Control
  import Ladder
  import Protocol

  /** What the ladder hands to the round, with the joined branches' text when no model answered. */
  function InferenceOf(t: Ladder.Turn, joined: string): Agent.Inference
    requires !t.result.Rethrown?
  {
    match t.result
    case Decided(Answer(text)) => Agent.Replying(text)
    case Decided(Delegation(reply, drafts)) => Agent.Delegating(reply, drafts)
    case Joined => Agent.Replying(joined)
    case Failed(kind) => Agent.Failing(kind, "")
  }

  /**
   * Whatever the models do within their step allowances, the round's inference is
   * legal: within the round's ceiling, delegating only in an open round, only at a
   * cost, and only a number of drafts that the table will take.
   */
  lemma LadderIsLegal(c: Protocol.Config, r: Ladder.Round, joined: string)
    requires Ladder.Legal(r.model) && Ladder.Consistent(r) && r.controls.maxSubtasks == c.max
    requires !Ladder.Climb(r).result.Rethrown?
    ensures Protocol.Legal(c, r.mode, r.allowance, InferenceOf(Ladder.Climb(r), joined), Ladder.Climb(r).spent)
  {
    hide Ladder.Climb;
    Ladder.RoundCost(r);
    if Ladder.Climb(r).result.Decided? {
      var calls := Ladder.ClimbDecision(r);
      Control.DelegationDecided(calls, r.controls);
    }
  }
}
