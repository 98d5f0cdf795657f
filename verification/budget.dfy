/** The turn budget of one round, and the modes a round may run in. */
module Budget {
  /** `Open`: every tool and both endings. `Final`: the budget is spent, only the answer is on offer. */
  datatype Mode = Open | Final

  function Max(a: int, b: int): int {
    if a >= b then a else b
  }

  /** Steps one model call may take: what is left, but never less than one. */
  function StepAllowance(allowance: int, spent: nat): (n: nat)
    ensures n >= 1
    ensures spent < allowance ==> spent + n == allowance
  {
    Max(1, allowance - spent)
  }

  /** The most turns one round may spend when `allowance` turns are left to its Task. */
  function RoundCeiling(allowance: int): nat {
    Max(1, allowance) + 1
  }
}
