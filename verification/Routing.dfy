/** Conditional-edge routing: pure functions of the state that pick the next node. */
module Routing {
  import opened State
  import opened Budgets

  datatype Node =
    | Supervisor | Planner | Research | Decide | ApprovalGate | Execute
    | Validate | Notify | Complete | Escalate | Retry | Replan

  function RouteAfterSupervisor(s: State): Node {
    if s.workflowType == SubscriptionUpgrade then Planner else Escalate
  }

  function RouteAfterResearch(s: State): Node {
    if s.evidence == [] then Escalate
    else if s.metadata.evidenceSufficient then Decide
    else Escalate
  }

  function RouteAfterDecide(s: State): Node {
    if s.status == Escalated then Escalate
    else if s.approvalStatus == Required then ApprovalGate
    else Execute
  }

  function RouteAfterApproval(s: State): Node {
    if s.approvalStatus == Granted then Execute else Escalate
  }

  function Verdicts(results: seq<ValidationResult>): set<Verdict> {
    set r | r in results :: r.verdict
  }

  /** The most recent error decides; with no error recorded the failure is not retryable. */
  predicate LastFailureIsRetryable(s: State) {
    s.errors != [] && s.errors[|s.errors| - 1].retryable
  }

  function RouteAfterValidate(s: State, policy: BudgetPolicy): Node {
    if s.validationResults == [] then Escalate
    else if Verdicts(s.validationResults) == {Pass} then Notify
    else if NeedsReview in Verdicts(s.validationResults) then Escalate
    else
      match NextRecoveryStep(s.retryCount, s.replanCount, LastFailureIsRetryable(s), policy)
      case RetryStep => Execute
      case ReplanStep => Planner
      case GiveUp => Escalate
  }

  /** PASS routing in terms of what was recorded: notify needs a result, and nothing but PASS ever. */
  lemma NotifyIffNothingButPass(s: State, policy: BudgetPolicy)
    ensures RouteAfterValidate(s, policy) == Notify <==> s.validationResults != [] && !s.Dirty()
  {
    var rs := s.validationResults;
    if rs != [] {
      assert rs[0].verdict in Verdicts(rs);
      if !s.Dirty() {
        assert Verdicts(rs) == {Pass};
      } else {
        var r :| r in rs && r.verdict != Pass;
        assert r.verdict in Verdicts(rs);
        assert Verdicts(rs) != {Pass};
      }
    }
  }

  /** The routes that look at one decision, said of the state: what has to be true for the workflow to go on. */
  lemma GoingOnNeeds(s: State)
    ensures RouteAfterSupervisor(s) == Planner <==> s.workflowType == SubscriptionUpgrade
    ensures RouteAfterResearch(s) == Decide <==> s.evidence != [] && s.metadata.evidenceSufficient
    ensures RouteAfterDecide(s) == Execute <==> s.status != Escalated && s.approvalStatus != Required
    ensures RouteAfterDecide(s) == ApprovalGate <==> s.status != Escalated && s.approvalStatus == Required
    ensures RouteAfterApproval(s) == Execute <==> s.approvalStatus == Granted
    ensures RouteAfterSupervisor(s) in {Planner, Escalate} && RouteAfterResearch(s) in {Decide, Escalate}
    ensures RouteAfterDecide(s) in {Execute, ApprovalGate, Escalate} && RouteAfterApproval(s) in {Execute, Escalate}
  {
  }
}
