/**
 The state that flows between graph nodes. List fields accumulate (each update is appended),
 scalar fields are last-write-wins, and the two budget counters are written by the graph alone.
 */
module State {
  import opened Common

  datatype Status =
    | Received | Planning | Researching | Deciding | AwaitingApproval
    | Executing | Validating | Completed | Failed | Escalated

  datatype WorkflowType = SubscriptionUpgrade | Unclassified

  datatype Verdict = Pass | Fail | NeedsReview

  datatype ApprovalState = NotRequired | Required | Granted | Rejected

  datatype Check = SubscriptionPlan | SubscriptionStatus | CrmPlanReference | EntitlementTier | ProrationAmount

  datatype System = Billing | Crm | Provisioning

  /** One comparison; `actual` is None when the system was unreadable or not consulted. */
  datatype ValidationResult =
    ValidationResult(check: Check, system: System, verdict: Verdict, expected: string, actual: Option<string>)

  datatype WorkflowError = WorkflowError(stage: string, code: string, retryable: bool)

  datatype ExecutionResult = ExecutionResult(step: string, ok: bool)

  /** The metadata object is replaced as a whole; only the two entries that decide anything are kept. */
  datatype Metadata = Metadata(evidenceSufficient: bool, prorationAmount: Option<int>)

  datatype State = State(
    workflowType: WorkflowType,
    accountId: Option<nat>,
    targetPlan: Option<string>,
    evidence: seq<string>,
    executionResults: seq<ExecutionResult>,
    validationResults: seq<ValidationResult>,
    errors: seq<WorkflowError>,
    approvalStatus: ApprovalState,
    approvalId: Option<nat>,
    retryCount: int,
    replanCount: int,
    status: Status,
    metadata: Metadata)
  {
    /** Some result recorded so far, on any visit, was not a PASS. */
    ghost predicate Dirty() {
      exists r :: r in validationResults && r.verdict != Pass
    }

    /** What the nodes test before acting: an account, and a target plan code that is not empty. */
    predicate HasSubject() {
      accountId.Some? && targetPlan.Some? && targetPlan.value != ""
    }
  }

  /** A partial update from a node. It has no counter fields: no node may write a budget counter. */
  datatype Update = Update(
    workflowType: Option<WorkflowType>,
    accountId: Option<nat>,
    targetPlan: Option<Option<string>>,
    evidence: seq<string>,
    executionResults: seq<ExecutionResult>,
    validationResults: seq<ValidationResult>,
    errors: seq<WorkflowError>,
    approvalStatus: Option<ApprovalState>,
    approvalId: Option<nat>,
    status: Option<Status>,
    metadata: Option<Metadata>)

  const NO_UPDATE := Update(None, None, None, [], [], [], [], None, None, None, None)

  function Pick<T>(written: Option<T>, previous: T): T {
    match written
    case Some(v) => v
    case None => previous
  }

  /** Merge a node's update into the state through the reducers. */
  function Merge(s: State, u: Update): State {
    State(
      Pick(u.workflowType, s.workflowType),
      if u.accountId.Some? then u.accountId else s.accountId,
      Pick(u.targetPlan, s.targetPlan),
      s.evidence + u.evidence,
      s.executionResults + u.executionResults,
      s.validationResults + u.validationResults,
      s.errors + u.errors,
      Pick(u.approvalStatus, s.approvalStatus),
      if u.approvalId.Some? then u.approvalId else s.approvalId,
      s.retryCount,
      s.replanCount,
      Pick(u.status, s.status),
      Pick(u.metadata, s.metadata))
  }

  /** A fresh run. */
  const INITIAL := State(
    Unclassified, None, None, [], [], [], [], NotRequired, None, 0, 0, Received, Metadata(false, None))
}
