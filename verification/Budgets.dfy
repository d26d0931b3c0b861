/** Retry and replan budgets: how much failure one run may absorb. */
module Budgets {
  datatype BudgetPolicy = BudgetPolicy(maxRetries: int, maxReplans: int)

  const DEFAULT_POLICY := BudgetPolicy(2, 1)

  datatype BudgetOutcome = RetryStep | ReplanStep | GiveUp

  /** Retry first, then replan, then escalate; a failure that is not transient skips the retry. */
  function NextRecoveryStep(retryCount: int, replanCount: int, retryable: bool, policy: BudgetPolicy): BudgetOutcome {
    if retryable && retryCount < policy.maxRetries then RetryStep
    else if replanCount < policy.maxReplans then ReplanStep
    else GiveUp
  }
}
