/**
 The shipped nodes. Each node's update is a function of the state and of what the node read from
 outside (a model, the records, a human's row, the portal); a run may read anything.
 */
module Nodes {
  import opened Common
  import opened State
  import opened Budgets
  import opened Routing
  import opened Graph
  import Approvals
  import Assessment
  import Tools
  import Validation

  /** What a node learned from outside during one visit. */
  datatype Input =
    | Classified(workflowType: WorkflowType, targetPlan: Option<string>)
    | Planned
    | NothingFound
    | Found(accountId: nat, evidence: seq<string>, toolErrors: seq<WorkflowError>, sufficient: bool)
    | Decided(assessment: Result<Assessment.Assessed, Assessment.AssessmentError>, consult: Assessment.Consult)
    | GateRead(approvalId: nat, recorded: Option<Approvals.ApprovalStatus>)
    | NoSubscription
    | Executed(results: seq<Tools.ToolResult>)
    | SystemsRead(billing: Option<(string, string)>, crmPlan: Option<string>, tier: Option<string>)
    | Silent

  datatype Step = Step(node: Node, input: Input)

  /**
   The inputs a visit can have. A node that raises makes no visit. Execute learns the results of its calls: two,
   or three where a portal is configured. Research calls no tool that can fail transiently.
   */
  ghost predicate Fits(n: Node, input: Input) {
    match n
    case Supervisor => input.Classified?
    case Planner => input.Planned?
    case Research =>
      || input.NothingFound?
      || (input.Found? && input.evidence != [] && forall e :: e in input.toolErrors ==> !e.retryable)
    case Decide => input.Decided? && !Assessment.Raises(input.assessment)
    case ApprovalGate => input.GateRead?
    case Execute => input.NoSubscription? || (input.Executed? && 2 <= |input.results| <= 3)
    case Validate => input.SystemsRead?
    case _ => input.Silent?
  }

  /** What validate read, as the comparison takes it: billing's plan and status come from one read. */
  function Observation(input: Input): Validation.Observed
    requires input.SystemsRead?
  {
    match input.billing
    case None => Validation.Observed(None, None, input.crmPlan, input.tier, None)
    case Some((plan, status)) => Validation.Observed(Some(plan), Some(status), input.crmPlan, input.tier, None)
  }

  function ValidateUpdate(s: State, input: Input): Update
    requires input.SystemsRead?
  {
    if !s.HasSubject() then NO_UPDATE.(status := Some(Escalated))
    else
      var results := Validation.Checks(Validation.Expected(s.targetPlan.value, "active", None), Observation(input));
      NO_UPDATE.(
        validationResults := results,
        errors := if Validation.OverallVerdict(results) == Pass then []
                  else [WorkflowError("validate", "cross_system_divergence", false)])
  }

  function GateUpdate(input: Input): Update
    requires input.GateRead?
  {
    var approved := input.recorded == Some(Approvals.Approved);
    NO_UPDATE.(
      approvalId := Some(input.approvalId),
      approvalStatus := Some(if approved then Granted else Rejected),
      status := Some(if approved then Executing else Escalated))
  }

  // ---- What an execute visit learned ----------------------------------------------------------------------

  function CodeName(code: Tools.ErrorCode): string {
    match code
    case ErrPermissionDenied => "permission_denied"
    case ErrApprovalRequired => "approval_required"
    case ErrApprovalNotGranted => "approval_not_granted"
    case ErrApprovalAlreadyConsumed => "approval_already_consumed"
    case ErrNotFound => "not_found"
    case ErrInvalidInput => "invalid_input"
    case ErrPreconditionFailed => "precondition_failed"
    case ErrUpstreamTimeout => "upstream_timeout"
    case ErrUpstreamError => "upstream_error"
    case ErrInternal => "internal_error"
  }

  /** The entry a failed step puts on the state. */
  function ErrorEntry(code: Tools.ErrorCode): WorkflowError {
    WorkflowError("execute", CodeName(code), Tools.Retryable(code))
  }

  /** The portal confirmed what was asked of it. */
  predicate MatchesRequest(p: Tools.Payload) {
    p.Provisioned? ==> p.requested == p.confirmed
  }

  function ErrorsOf(r: Tools.ToolResult): seq<WorkflowError> {
    if r.Err? then [ErrorEntry(r.error)] else []
  }

  function PortalErrorsOf(r: Tools.ToolResult): seq<WorkflowError> {
    if r.Ok? && !MatchesRequest(r.value) then [ErrorEntry(Tools.ErrPreconditionFailed)] else ErrorsOf(r)
  }

  /** What became of each step; a portal that is not configured is a failed step. */
  function StepResults(results: seq<Tools.ToolResult>): seq<ExecutionResult>
    requires 2 <= |results| <= 3
  {
    [ExecutionResult("update_subscription", results[0].Ok?),
     ExecutionResult("update_crm", results[1].Ok?),
     ExecutionResult("update_entitlement", |results| == 3 && results[2].Ok?)]
  }

  /** The errors of the steps, in order. */
  function StepErrors(results: seq<Tools.ToolResult>): seq<WorkflowError>
    requires 2 <= |results| <= 3
  {
    ErrorsOf(results[0]) + ErrorsOf(results[1])
    + if |results| == 3 then PortalErrorsOf(results[2]) else [ErrorEntry(Tools.ErrPreconditionFailed)]
  }

  lemma PortalErrors(r: Tools.ToolResult)
    ensures PortalErrorsOf(r) ==
            if r.Err? then [ErrorEntry(r.error)]
            else if MatchesRequest(r.value) then [] else [ErrorEntry(Tools.ErrPreconditionFailed)]
  {
  }

  /** The portal call was let through and either went as asked or failed in passing. */
  predicate WorthRepeating(results: seq<Tools.ToolResult>) {
    && |results| == 3
    && (if results[2].Ok? then MatchesRequest(results[2].value) else Tools.Retryable(results[2].error))
  }

  /**
   A visit reports no error exactly when the portal is configured, all three calls succeeded and the portal
   confirmed what was asked. After a failed portal call the last error is retryable exactly when that failure
   was transient; a missing portal or a mismatch never is.
   */
  lemma NoErrorIff(results: seq<Tools.ToolResult>)
    requires 2 <= |results| <= 3
    ensures StepErrors(results) == [] <==>
            |results| == 3 && (forall k :: 0 <= k < 3 ==> results[k].Ok?) && MatchesRequest(results[2].value)
    ensures var errors := StepErrors(results);
            |results| == 3 && results[2].Err? ==>
              errors != [] && errors[|errors| - 1].retryable == Tools.Retryable(results[2].error)
    ensures var errors := StepErrors(results);
            |results| == 2 || (results[2].Ok? && !MatchesRequest(results[2].value)) ==>
              errors != [] && !errors[|errors| - 1].retryable
  {
    hide CodeName;
  }

  /**
   What is reported of the steps: how each went, in order, and one error for each that failed, in order; a missing
   portal and a confirmation of something else are failures of the last one.
   */
  lemma StepsReport(results: seq<Tools.ToolResult>)
    requires 2 <= |results| <= 3
    ensures var steps := StepResults(results);
            && |steps| == 3 && steps[0].step == "update_subscription" && steps[1].step == "update_crm"
            && steps[2].step == "update_entitlement"
            && (forall n :: 0 <= n < |results| ==> steps[n].ok == results[n].Ok?) && (|results| == 2 ==> !steps[2].ok)
    ensures var errors := StepErrors(results);
            var first, second := results[0].Err?, results[1].Err?;
            var last := |results| == 2 || results[2].Err? || !MatchesRequest(results[2].value);
            && |errors| == (if first then 1 else 0) + (if second then 1 else 0) + (if last then 1 else 0)
            && (first ==> errors[0] == ErrorEntry(results[0].error))
            && (second ==> errors[if first then 1 else 0] == ErrorEntry(results[1].error))
            && (last ==> errors[|errors| - 1] == ErrorEntry(
                  if |results| == 3 && results[2].Err? then results[2].error else Tools.ErrPreconditionFailed))
  {
    hide CodeName;
  }

  /** No two codes have one name, and the two that may be worth another try are those of the systems upstream. */
  lemma CodesAreTold(code: Tools.ErrorCode, other: Tools.ErrorCode)
    ensures CodeName(code) == CodeName(other) <==> code == other
    ensures ErrorEntry(code).retryable <==> CodeName(code) == "upstream_timeout" || CodeName(code) == "upstream_error"
    ensures ErrorEntry(code).stage == "execute" && ErrorEntry(code).code == CodeName(code)
  {
  }

  function ShippedUpdate(n: Node, s: State, input: Input): Update
    requires Fits(n, input)
  {
    match n
    case Supervisor =>
      NO_UPDATE.(workflowType := Some(input.workflowType), targetPlan := Some(input.targetPlan),
                 status := Some(Planning))
    case Planner => NO_UPDATE.(status := Some(Researching))
    case Research =>
      if input.NothingFound? then
        NO_UPDATE.(errors := [WorkflowError("research", "not_found", false)], metadata := Some(Metadata(false, None)))
      else
        NO_UPDATE.(accountId := Some(input.accountId), evidence := input.evidence, errors := input.toolErrors,
                   status := Some(Deciding), metadata := Some(s.metadata.(evidenceSufficient := input.sufficient)))
    case Decide => Assessment.DecideUpdate(s, input.assessment, input.consult)
    case ApprovalGate => GateUpdate(input)
    case Execute =>
      if !s.HasSubject() || input.NoSubscription? then Assessment.EscalateUpdate()
      else NO_UPDATE.(executionResults := StepResults(input.results), errors := StepErrors(input.results),
                      status := Some(Validating))
    case Validate => ValidateUpdate(s, input)
    case Notify => NO_UPDATE.(executionResults := [ExecutionResult("notify", true)], status := Some(Completed))
    case Complete => NO_UPDATE.(status := Some(Completed))
    case Escalate => NO_UPDATE.(status := Some(Escalated))
    case Retry => NO_UPDATE
    case Replan => NO_UPDATE
  }

  ghost function StepState(s: State, step: Step): State {
    if Fits(step.node, step.input)
    then After(s, Visit(step.node, ShippedUpdate(step.node, s, step.input)))
    else s
  }

  /** The state before the visit at `k`. */
  ghost function StateAt(steps: seq<Step>, k: nat): State
    requires k <= |steps|
  {
    if k == 0 then INITIAL else StepState(StateAt(steps, k - 1), steps[k - 1])
  }

  /** A run of the shipped graph, or the beginning of one. */
  ghost predicate ShippedRun(policy: BudgetPolicy, steps: seq<Step>) {
    && (steps != [] ==> steps[0].node == Supervisor)
    && (forall k :: 0 <= k < |steps| ==> Fits(steps[k].node, steps[k].input))
    && (forall k :: 0 < k < |steps| ==> Follows(policy, steps, k))
  }

  /** The visit at `k` is the one the edges prescribe. */
  ghost predicate Follows(policy: BudgetPolicy, steps: seq<Step>, k: nat)
    requires 0 < k < |steps|
  {
    Next(steps[k - 1].node, StateAt(steps, k), policy) == Some(steps[k].node)
  }

  ghost predicate Ended(steps: seq<Step>) {
    steps != [] && steps[|steps| - 1].node in {Complete, Escalate}
  }

  // ---- Runs grow one visit at a time ---------------------------------------------------------------------

  lemma {:induction false} StatePrefix(steps: seq<Step>, more: seq<Step>, k: nat)
    requires k <= |steps|
    ensures StateAt(steps + more, k) == StateAt(steps, k)
  {
    hide StepState;
    if k > 0 { StatePrefix(steps, more, k - 1); }
  }

  lemma RunGrows(policy: BudgetPolicy, steps: seq<Step>, next: Step)
    requires ShippedRun(policy, steps) && Fits(next.node, next.input)
    requires steps == [] ==> next.node == Supervisor
    requires steps != [] ==> Next(steps[|steps| - 1].node, StateAt(steps, |steps|), policy) == Some(next.node)
    ensures ShippedRun(policy, steps + [next])
  {
    hide StateAt, Next, Fits;
    var grown := steps + [next];
    forall k | 0 < k < |grown| ensures Follows(policy, grown, k) {
      StatePrefix(steps, [next], k);
      if k < |steps| { assert Follows(policy, steps, k); }
    }
  }

  // ---- Shipped runs are runs of the graph -------------------------------------------------------------

  ghost function VisitAt(steps: seq<Step>, k: nat): Visit
    requires k < |steps|
  {
    Visit(steps[k].node,
          if Fits(steps[k].node, steps[k].input)
          then ShippedUpdate(steps[k].node, StateAt(steps, k), steps[k].input) else NO_UPDATE)
  }

  ghost function VisitsFrom(steps: seq<Step>, k: nat): seq<Visit>
    requires k <= |steps|
    decreases |steps| - k
  {
    if k == |steps| then [] else [VisitAt(steps, k)] + VisitsFrom(steps, k + 1)
  }

  lemma {:induction false} ShippedFromHere(policy: BudgetPolicy, steps: seq<Step>, k: nat)
    requires ShippedRun(policy, steps) && k < |steps|
    ensures RunFrom(steps[k].node, StateAt(steps, k), policy, VisitsFrom(steps, k))
    ensures |VisitsFrom(steps, k)| == |steps| - k
    decreases |steps| - k
  {
    var visits := VisitsFrom(steps, k);
    assert visits[1..] == VisitsFrom(steps, k + 1);
    assert After(StateAt(steps, k), visits[0]) == StateAt(steps, k + 1);
    if k + 1 < |steps| {
      assert Follows(policy, steps, k + 1);
      ShippedFromHere(policy, steps, k + 1);
    }
  }

  /** The shipped nodes inherit the bound on every run. */
  lemma ShippedRunsTerminate(policy: BudgetPolicy, steps: seq<Step>)
    requires ShippedRun(policy, steps)
    ensures |steps| <= MostVisits(policy)
  {
    if steps != [] {
      ShippedFromHere(policy, steps, 0);
      RunsTerminate(policy, VisitsFrom(steps, 0));
    }
  }

  // ---- Failure is never forgotten ------------------------------------------------------------------------

  lemma {:induction false} DirtyPersists(steps: seq<Step>, i: nat, j: nat)
    requires i <= j <= |steps| && StateAt(steps, i).Dirty()
    ensures StateAt(steps, j).Dirty()
    decreases j - i
  {
    if i < j {
      DirtyPersists(steps, i, j - 1);
      DirtyStays(StateAt(steps, j - 1), VisitAt(steps, j - 1));
    }
  }

  /** Recovery is only ever started after a recorded failure. */
  lemma RecoveryMeansDirty(policy: BudgetPolicy, steps: seq<Step>, k: nat)
    requires ShippedRun(policy, steps) && 0 < k < |steps| && steps[k].node in {Retry, Replan}
    ensures StateAt(steps, k).Dirty()
  {
    hide StateAt;
    assert Follows(policy, steps, k);
    NotifyIffNothingButPass(StateAt(steps, k), policy);
  }

  /** Nothing but validate writes results. */
  lemma OnlyValidateWritesResults(steps: seq<Step>, k: nat)
    requires k < |steps| && Fits(steps[k].node, steps[k].input) && steps[k].node != Validate
    ensures StateAt(steps, k + 1).validationResults == StateAt(steps, k).validationResults
  {
  }

  /** Notify is only ever reached with results on record, all of them PASS. */
  lemma NotifyMeansClean(policy: BudgetPolicy, steps: seq<Step>, k: nat)
    requires ShippedRun(policy, steps) && k < |steps| && steps[k].node == Notify
    ensures k > 0 && steps[k - 1].node == Validate
    ensures StateAt(steps, k).validationResults != [] && !StateAt(steps, k).Dirty()
  {
    hide StateAt;
    assert Follows(policy, steps, k);
    NotifyIffNothingButPass(StateAt(steps, k), policy);
  }

  lemma CompleteComesFromNotify(policy: BudgetPolicy, steps: seq<Step>, k: nat)
    requires ShippedRun(policy, steps) && k < |steps| && steps[k].node == Complete
    ensures k > 0 && steps[k - 1].node == Notify
  {
    hide StateAt;
    assert Follows(policy, steps, k);
  }

  /** A run that ever recorded a FAIL or a NEEDS_REVIEW can only end in ESCALATE. */
  lemma FailureNeverCompletes(policy: BudgetPolicy, steps: seq<Step>, k: nat)
    requires ShippedRun(policy, steps) && Ended(steps) && k <= |steps| && StateAt(steps, k).Dirty()
    ensures steps[|steps| - 1].node == Escalate
  {
    hide StateAt;
    var m := |steps| - 1;
    if steps[m].node == Complete {
      CompleteComesFromNotify(policy, steps, m);
      NotifyMeansClean(policy, steps, m - 1);
      OnlyValidateWritesResults(steps, m);
      OnlyValidateWritesResults(steps, m - 1);
      if k < m - 1 { DirtyPersists(steps, k, m - 1); }
    }
  }

  // ---- Completion means every system was read and agreed ----------------------------------------------------

  lemma {:induction false} NoResultsBeforeValidate(policy: BudgetPolicy, steps: seq<Step>, k: nat)
    requires ShippedRun(policy, steps) && k <= |steps|
    requires forall i :: 0 <= i < k ==> steps[i].node != Validate
    ensures StateAt(steps, k).validationResults == []
  {
    hide StepState;
    if k > 0 {
      NoResultsBeforeValidate(policy, steps, k - 1);
      OnlyValidateWritesResults(steps, k - 1);
    }
  }

  lemma SupervisorIsFirst(policy: BudgetPolicy, steps: seq<Step>)
    requires ShippedRun(policy, steps)
    ensures forall k :: 0 < k < |steps| ==> steps[k].node != Supervisor
  {
    hide StateAt;
    forall k | 0 < k < |steps| ensures steps[k].node != Supervisor {
      assert Follows(policy, steps, k);
    }
  }

  /** The way back from a decide that no failure preceded: the first four visits. */
  lemma CleanPrefix(policy: BudgetPolicy, steps: seq<Step>, j: nat)
    requires ShippedRun(policy, steps) && j < |steps| && steps[j].node == Decide && !StateAt(steps, j).Dirty()
    ensures j == 3 && steps[0].node == Supervisor && steps[1].node == Planner && steps[2].node == Research
  {
    hide StateAt;
    assert Follows(policy, steps, j);
    assert steps[j - 1].node == Research;
    assert Follows(policy, steps, j - 1);
    assert steps[j - 2].node == Planner;
    assert Follows(policy, steps, j - 2);
    assert steps[j - 3].node in {Supervisor, Replan};
    if steps[j - 3].node == Replan {
      RecoveryMeansDirty(policy, steps, j - 3);
      DirtyPersists(steps, j - 3, j);
    }
    SupervisorIsFirst(policy, steps);
  }

  /** Where an execute visit can come from. */
  lemma ExecuteComesFrom(policy: BudgetPolicy, steps: seq<Step>, k: nat)
    requires ShippedRun(policy, steps) && k < |steps| && steps[k].node == Execute
    ensures k > 0 && steps[k - 1].node in {Decide, ApprovalGate, Retry}
    ensures steps[k - 1].node == ApprovalGate ==> k > 1 && steps[k - 2].node == Decide
    ensures steps[k - 1].node == Retry ==> k > 3 && steps[k - 2].node == Validate && steps[k - 3].node == Execute
  {
    hide StateAt;
    assert Follows(policy, steps, k);
    if steps[k - 1].node != Decide {
      assert Follows(policy, steps, k - 1);
      if steps[k - 1].node == Retry {
        assert Follows(policy, steps, k - 2);
        ExecuteIsNotFirst(policy, steps, k - 3);
      }
    }
  }

  lemma ExecuteIsNotFirst(policy: BudgetPolicy, steps: seq<Step>, k: nat)
    requires ShippedRun(policy, steps) && k < |steps| && steps[k].node == Execute
    ensures k > 0
  {
  }

  /** The nodes of a run that completes, in order: no retry, no replan, one execute, one validate. */
  lemma CompletedShape(policy: BudgetPolicy, steps: seq<Step>)
    requires ShippedRun(policy, steps) && Ended(steps) && steps[|steps| - 1].node == Complete
    ensures |steps| == 8 || (|steps| == 9 && steps[4].node == ApprovalGate)
    ensures steps[0].node == Supervisor && steps[1].node == Planner && steps[2].node == Research
            && steps[3].node == Decide
    ensures var m := |steps| - 1;
            steps[m - 3].node == Execute && steps[m - 2].node == Validate && steps[m - 1].node == Notify
  {
    hide StateAt;
    var m := |steps| - 1;
    CompleteComesFromNotify(policy, steps, m);
    NotifyMeansClean(policy, steps, m - 1);
    forall k | 0 <= k <= m - 1 ensures !StateAt(steps, k).Dirty() {
      if StateAt(steps, k).Dirty() { DirtyPersists(steps, k, m - 1); }
    }
    assert Follows(policy, steps, m - 2);
    ExecuteComesFrom(policy, steps, m - 3);
    if steps[m - 4].node == Retry { RecoveryMeansDirty(policy, steps, m - 4); }
    CleanPrefix(policy, steps, if steps[m - 4].node == Decide then m - 4 else m - 5);
  }

  /** From validate on, neither the account nor the target changes. */
  lemma SubjectIsFixed(steps: seq<Step>, k: nat)
    requires k < |steps| && Fits(steps[k].node, steps[k].input) && steps[k].node in {Validate, Notify, Complete}
    ensures StateAt(steps, k + 1).targetPlan == StateAt(steps, k).targetPlan
    ensures StateAt(steps, k + 1).accountId == StateAt(steps, k).accountId
  {
  }

  /** The validate visit left nothing but PASS behind: so every system was read, and agreed. */
  lemma CleanValidateAgrees(steps: seq<Step>, k: nat)
    requires k < |steps| && steps[k].node == Validate && steps[k].input.SystemsRead?
    requires StateAt(steps, k).validationResults == []
    requires StateAt(steps, k + 1).validationResults != [] && !StateAt(steps, k + 1).Dirty()
    ensures StateAt(steps, k).HasSubject()
    ensures var target := StateAt(steps, k).targetPlan.value;
            steps[k].input == SystemsRead(Some((target, "active")), Some(target), Some(target))
  {
    hide StateAt, ValidateUpdate;
    AfterValidate(steps, k);
    AllPassed(StateAt(steps, k), steps[k].input);
  }

  lemma AllPassed(s: State, input: Input)
    requires input.SystemsRead? && s.validationResults == []
    requires Merge(s, ValidateUpdate(s, input)).validationResults != [] && !Merge(s, ValidateUpdate(s, input)).Dirty()
    ensures s.HasSubject()
    ensures var target := s.targetPlan.value;
            input == SystemsRead(Some((target, "active")), Some(target), Some(target))
  {
    hide Validation.Checks, Validation.OverallVerdict;
    var u := ValidateUpdate(s, input);
    assert s.validationResults + u.validationResults == u.validationResults;
    var expected := Validation.Expected(s.targetPlan.value, "active", None);
    forall r | r in Validation.Checks(expected, Observation(input)) ensures r.verdict == Pass {
      assert r in Merge(s, u).validationResults;
    }
    Validation.PassIffAgrees(expected, Observation(input));
  }

  lemma LastNodeSetsStatus(steps: seq<Step>, k: nat)
    requires k < |steps| && Fits(steps[k].node, steps[k].input)
    ensures steps[k].node == Complete ==> StateAt(steps, k + 1).status == Completed
    ensures steps[k].node == Escalate ==> StateAt(steps, k + 1).status == Escalated
  {
  }

  /**
   A run ends COMPLETED exactly when it ends at the complete node, and then its one validate visit read the
   target plan from billing (active), the CRM and the portal alike.
   */
  lemma CompletedMeansVerified(policy: BudgetPolicy, steps: seq<Step>)
    requires ShippedRun(policy, steps) && Ended(steps)
    ensures StateAt(steps, |steps|).status == Completed <==> steps[|steps| - 1].node == Complete
    ensures StateAt(steps, |steps|).status == Escalated <==> steps[|steps| - 1].node == Escalate
    ensures steps[|steps| - 1].node == Complete ==>
              && |steps| >= 8
              && StateAt(steps, |steps|).targetPlan.Some?
              && var target := StateAt(steps, |steps|).targetPlan.value;
                 steps[|steps| - 3] == Step(Validate, SystemsRead(Some((target, "active")), Some(target), Some(target)))
    ensures steps[|steps| - 1].node == Complete ==>
              forall k :: 0 <= k < |steps| && steps[k].node == Validate ==> k == |steps| - 3
  {
    hide StateAt, Next, StepErrors, Verdicts;
    LastNodeSetsStatus(steps, |steps| - 1);
    if steps[|steps| - 1].node == Complete {
      CompletedShape(policy, steps);
      assert forall i :: 0 <= i < |steps| - 3 ==> steps[i].node != Validate;
      LastValidateAgrees(policy, steps);
    }
  }

  lemma LastValidateAgrees(policy: BudgetPolicy, steps: seq<Step>)
    requires ShippedRun(policy, steps) && |steps| >= 8
    requires var m := |steps| - 1;
             steps[m].node == Complete && steps[m - 1].node == Notify && steps[m - 2].node == Validate
    requires forall i :: 0 <= i < |steps| - 3 ==> steps[i].node != Validate
    ensures StateAt(steps, |steps| - 3).HasSubject()
    ensures StateAt(steps, |steps|).accountId == StateAt(steps, |steps| - 3).accountId
    ensures StateAt(steps, |steps|).targetPlan == StateAt(steps, |steps| - 3).targetPlan
    ensures var target := StateAt(steps, |steps|).targetPlan.value;
            steps[|steps| - 3].input == SystemsRead(Some((target, "active")), Some(target), Some(target))
  {
    hide StateAt, Next, StepErrors, Verdicts;
    var m := |steps| - 1;
    NotifyMeansClean(policy, steps, m - 1);
    NoResultsBeforeValidate(policy, steps, m - 2);
    CleanValidateAgrees(steps, m - 2);
    SubjectIsFixed(steps, m - 2);
    SubjectIsFixed(steps, m - 1);
    SubjectIsFixed(steps, m);
  }

  /** The account and the target the last validate visit checked are those of the final state. */
  lemma SubjectAtTheEnd(policy: BudgetPolicy, steps: seq<Step>)
    requires ShippedRun(policy, steps) && Ended(steps) && steps[|steps| - 1].node == Complete
    ensures |steps| >= 8 && StateAt(steps, |steps| - 3).HasSubject()
    ensures StateAt(steps, |steps|).accountId == StateAt(steps, |steps| - 3).accountId
    ensures StateAt(steps, |steps|).targetPlan == StateAt(steps, |steps| - 3).targetPlan
  {
    hide StateAt, Next, StepErrors, Verdicts;
    CompletedShape(policy, steps);
    LastValidateAgrees(policy, steps);
  }

  // ---- The gate ---------------------------------------------------------------------------------------------

  /**
   The execute visit at `k` is cleared by the decide visit at `j` of the same plan cycle: that decision did
   not refuse, and it either needed no approval and led straight to execute, or was followed by a gate that
   read an APPROVED row.
   */
  ghost predicate ClearedBy(steps: seq<Step>, j: nat, k: nat)
    requires j < k < |steps|
  {
    && steps[j].node == Decide && steps[j].input.Decided?
    && !Assessment.DecisionRefused(StateAt(steps, j), steps[j].input.assessment)
    && (forall i :: j < i < k ==> steps[i].node in {ApprovalGate, Execute, Validate, Retry})
    && (if Assessment.NeedsApproval(steps[j].input.assessment.value, steps[j].input.consult)
        then steps[j + 1].node == ApprovalGate && steps[j + 1].input.GateRead?
             && steps[j + 1].input.recorded == Some(Approvals.Approved)
             && j + 2 < |steps| && steps[j + 2].node == Execute
        else steps[j + 1].node == Execute)
  }

  /** A decide visit that is not followed by escalate decided, and its own verdict says whether a gate follows. */
  lemma DecideRoutes(policy: BudgetPolicy, steps: seq<Step>, j: nat)
    requires ShippedRun(policy, steps) && j + 1 < |steps| && steps[j].node == Decide && steps[j + 1].node != Escalate
    ensures steps[j].input.Decided? && !Assessment.DecisionRefused(StateAt(steps, j), steps[j].input.assessment)
    ensures steps[j + 1].node == if Assessment.NeedsApproval(steps[j].input.assessment.value, steps[j].input.consult)
                                 then ApprovalGate else Execute
  {
    assert Follows(policy, steps, j + 1);
  }

  /** The gate opens only on the row it just read, never on a grant left in the state from before. */
  lemma GateOpensOnApproved(policy: BudgetPolicy, steps: seq<Step>, g: nat)
    requires ShippedRun(policy, steps) && g + 1 < |steps| && steps[g].node == ApprovalGate
             && steps[g + 1].node == Execute
    ensures steps[g].input.GateRead? && steps[g].input.recorded == Some(Approvals.Approved)
  {
    assert Follows(policy, steps, g + 1);
  }

  /** Every execute visit is cleared by a decision of its own plan cycle. */
  lemma {:induction false} ExecuteIsCleared(policy: BudgetPolicy, steps: seq<Step>, k: nat) returns (j: nat)
    requires ShippedRun(policy, steps) && k < |steps| && steps[k].node == Execute
    ensures j < k && ClearedBy(steps, j, k)
    decreases k
  {
    hide StateAt, ShippedRun, Fits, Assessment.NeedsApproval, Assessment.DecisionRefused;
    ExecuteComesFrom(policy, steps, k);
    if steps[k - 1].node == Decide {
      j := k - 1;
      DecideRoutes(policy, steps, j);
    } else if steps[k - 1].node == ApprovalGate {
      j := k - 2;
      DecideRoutes(policy, steps, j);
      GateOpensOnApproved(policy, steps, k - 1);
    } else {
      j := ExecuteIsCleared(policy, steps, k - 3);
    }
  }

  // ---- A failed validation is not retried -------------------------------------------------------------------

  lemma NothingFollowsAnEnd(policy: BudgetPolicy, steps: seq<Step>, i: nat)
    requires ShippedRun(policy, steps) && i < |steps|
    ensures steps[i].node in {Complete, Escalate} ==> i == |steps| - 1
  {
    hide StateAt;
    if i + 1 < |steps| { assert Follows(policy, steps, i + 1); }
  }

  /** After validate the run is recovering, or over within two visits. */
  lemma ValidateThen(policy: BudgetPolicy, steps: seq<Step>, i: nat, k: nat)
    requires ShippedRun(policy, steps) && i < k < |steps| && steps[i].node == Validate && steps[k].node == Retry
    ensures steps[i + 1].node in {Retry, Replan}
  {
    hide StateAt;
    assert Follows(policy, steps, i + 1);
    NothingFollowsAnEnd(policy, steps, i + 1);
    if steps[i + 1].node == Notify && i + 2 < |steps| {
      assert Follows(policy, steps, i + 2);
      NothingFollowsAnEnd(policy, steps, i + 2);
    }
  }

  /** The error validate appends after a failed comparison is never a retryable one. */
  lemma FreshFailureIsFinal(steps: seq<Step>, k: nat)
    requires k < |steps| && steps[k].node == Validate && steps[k].input.SystemsRead?
    requires StateAt(steps, k).validationResults == [] && StateAt(steps, k + 1).Dirty()
    ensures !LastFailureIsRetryable(StateAt(steps, k + 1))
  {
    hide StateAt, ValidateUpdate, ReadAsAgreeing, Verdicts;
    var s, input := StateAt(steps, k), steps[k].input;
    AfterValidate(steps, k);
    if s.HasSubject() { ValidateLeaves(s, input); } else { NothingToValidate(s, input); }
  }

  lemma NothingToValidate(s: State, input: Input)
    requires input.SystemsRead? && !s.HasSubject()
    ensures Merge(s, ValidateUpdate(s, input)).validationResults == s.validationResults
  {
  }

  /**
   No validation failure is ever answered by a retry until the run has been replanned: validate marks every
   failure as not retryable. Only after a replan can an older, retryable tool error be the last one on record.
   */
  lemma {:induction false} RetryNeedsAReplan(policy: BudgetPolicy, steps: seq<Step>, k: nat) returns (j: nat)
    requires ShippedRun(policy, steps) && k < |steps| && steps[k].node == Retry
    ensures j < k && steps[j].node == Replan
    decreases k
  {
    hide StateAt, StepState;
    j := 0;
    assert Follows(policy, steps, k);
    assert steps[k - 1].node == Validate;
    if i :| 0 <= i < k - 1 && steps[i].node == Validate {
      ValidateThen(policy, steps, i, k);
      if steps[i + 1].node == Replan { j := i + 1; } else { j := RetryNeedsAReplan(policy, steps, i + 1); }
    } else {
      NoResultsBeforeValidate(policy, steps, k - 1);
      NotifyIffNothingButPass(StateAt(steps, k), policy);
      if StateAt(steps, k).Dirty() { FreshFailureIsFinal(steps, k - 1); }
      assert false;
    }
  }

  /** Nothing between a decision and the validation it leads to touches the subject. */
  lemma {:induction false} SubjectStays(steps: seq<Step>, j: nat, k: nat)
    requires j <= k <= |steps|
    requires forall i :: j <= i < k ==> Fits(steps[i].node, steps[i].input) && steps[i].node !in {Supervisor, Research}
    ensures StateAt(steps, k).accountId == StateAt(steps, j).accountId
    ensures StateAt(steps, k).targetPlan == StateAt(steps, j).targetPlan
    decreases k - j
  {
    hide StateAt;
    if j < k {
      SubjectStays(steps, j, k - 1);
      OneVisitKeepsSubject(steps, k - 1);
    }
  }

  lemma OneVisitKeepsSubject(steps: seq<Step>, k: nat)
    requires k < |steps| && Fits(steps[k].node, steps[k].input) && steps[k].node !in {Supervisor, Research}
    ensures StateAt(steps, k + 1).accountId == StateAt(steps, k).accountId
    ensures StateAt(steps, k + 1).targetPlan == StateAt(steps, k).targetPlan
  {
  }

  /** Validation always has a subject: the decision behind it had one. */
  lemma ValidateHasSubject(policy: BudgetPolicy, steps: seq<Step>, k: nat)
    requires ShippedRun(policy, steps) && k < |steps| && steps[k].node == Validate
    ensures StateAt(steps, k).HasSubject()
  {
    hide StateAt;
    assert Follows(policy, steps, k);
    var j := ExecuteIsCleared(policy, steps, k - 1);
    SubjectStays(steps, j, k);
  }

  /** The comparison of this visit came out PASS throughout. */
  ghost predicate ReadAsAgreeing(s: State, input: Input)
    requires input.SystemsRead? && s.HasSubject()
  {
    Validation.Agrees(Validation.Expected(s.targetPlan.value, "active", None), Observation(input))
  }

  lemma RetryRoute(s: State, policy: BudgetPolicy)
    ensures ValidateRouter(s, policy) == Retry <==>
            && s.Dirty() && NeedsReview !in Verdicts(s.validationResults)
            && LastFailureIsRetryable(s) && s.retryCount < policy.maxRetries
  {
    NotifyIffNothingButPass(s, policy);
    if s.Dirty() {
      var r :| r in s.validationResults && r.verdict != Pass;
    }
  }

  /** A failed comparison leaves an error behind that is not retryable; an agreeing one leaves no trace but PASS. */
  lemma ValidateLeaves(s: State, input: Input)
    requires input.SystemsRead? && s.HasSubject()
    ensures var s' := Merge(s, ValidateUpdate(s, input));
            if ReadAsAgreeing(s, input)
            then s'.errors == s.errors && (s'.Dirty() <==> s.Dirty())
                 && (NeedsReview in Verdicts(s'.validationResults) <==> NeedsReview in Verdicts(s.validationResults))
            else !LastFailureIsRetryable(s')
  {
    var u := ValidateUpdate(s, input);
    var s' := Merge(s, u);
    Validation.PassIffAgrees(Validation.Expected(s.targetPlan.value, "active", None), Observation(input));
    assert s'.validationResults == s.validationResults + u.validationResults;
    if ReadAsAgreeing(s, input) {
      assert u.errors == [] && s'.errors == s.errors;
      assert forall r :: r in u.validationResults ==> r.verdict == Pass;
      SameTrouble(s.validationResults, u.validationResults);
    } else {
      assert s'.errors == s.errors + u.errors;
    }
  }

  lemma SameTrouble(before: seq<ValidationResult>, passes: seq<ValidationResult>)
    requires forall r :: r in passes ==> r.verdict == Pass
    ensures NeedsReview in Verdicts(before + passes) <==> NeedsReview in Verdicts(before)
    ensures (exists r :: r in before + passes && r.verdict != Pass) <==> (exists r :: r in before && r.verdict != Pass)
  {
    forall r | r in before ensures r in before + passes {}
  }

  /**
   When a validate visit is followed by a retry: exactly when this visit read all three systems as agreeing,
   while an older comparison had failed (and none was left to review), the last error on record is an older,
   retryable one, and retries are left. So a failed comparison is never answered by a retry.
   */
  lemma RetryIff(policy: BudgetPolicy, steps: seq<Step>, k: nat)
    requires ShippedRun(policy, steps) && k + 1 < |steps| && steps[k].node == Validate
    ensures StateAt(steps, k).HasSubject()
    ensures var s := StateAt(steps, k);
            steps[k + 1].node == Retry <==>
            && ReadAsAgreeing(s, steps[k].input)
            && s.Dirty() && NeedsReview !in Verdicts(s.validationResults)
            && LastFailureIsRetryable(s) && s.retryCount < policy.maxRetries
  {
    hide StateAt, Verdicts, ValidateUpdate, ReadAsAgreeing;
    ValidateHasSubject(policy, steps, k);
    assert Follows(policy, steps, k + 1);
    var s, s' := StateAt(steps, k), StateAt(steps, k + 1);
    AfterValidate(steps, k);
    ValidateLeaves(s, steps[k].input);
    RetryRoute(s', policy);
  }

  lemma AfterValidate(steps: seq<Step>, k: nat)
    requires k < |steps| && steps[k].node == Validate && Fits(Validate, steps[k].input)
    ensures StateAt(steps, k + 1) == Merge(StateAt(steps, k), ValidateUpdate(StateAt(steps, k), steps[k].input))
  {
  }

  // ---- What a retry repeats ---------------------------------------------------------------------------------

  lemma AfterExecute(steps: seq<Step>, k: nat)
    requires k < |steps| && steps[k].node == Execute && Fits(Execute, steps[k].input) && StateAt(steps, k).HasSubject()
    ensures StateAt(steps, k + 1).errors == StateAt(steps, k).errors
            + if steps[k].input.Executed? then StepErrors(steps[k].input.results)
              else [WorkflowError("decide", "invalid_input", false)]
  {
    hide StepErrors, StepResults;
  }

  /**
   A retry repeats work that was let through: the portal call of the execute visit before it had succeeded as
   asked, or had failed in passing. An execute visit whose calls were refused is never followed by a retry.
   */
  lemma RetryRepeatsWork(policy: BudgetPolicy, steps: seq<Step>, k: nat)
    requires ShippedRun(policy, steps) && k < |steps| && steps[k].node == Retry
    ensures k > 2 && steps[k - 1].node == Validate && steps[k - 2].node == Execute
    ensures steps[k - 2].input.Executed? && WorthRepeating(steps[k - 2].input.results)
  {
    hide StateAt, StepErrors, Verdicts, ReadAsAgreeing;
    assert Follows(policy, steps, k);
    assert Follows(policy, steps, k - 1);
    ExecuteIsNotFirst(policy, steps, k - 2);
    RetryIff(policy, steps, k - 1);
    OneVisitKeepsSubject(steps, k - 2);
    AfterExecute(steps, k - 2);
    if steps[k - 2].input.Executed? { NoErrorIff(steps[k - 2].input.results); }
  }

  /** Nothing but an execute visit ever puts a retryable error on record. */
  lemma OneVisitAddsNoTransientError(steps: seq<Step>, k: nat, e: WorkflowError)
    requires k < |steps| && Fits(steps[k].node, steps[k].input) && e.retryable
    requires e in StateAt(steps, k + 1).errors && e !in StateAt(steps, k).errors
    ensures steps[k].node == Execute && steps[k].input.Executed? && e in StepErrors(steps[k].input.results)
  {
    hide StepErrors, StepResults;
  }

  /** Every retryable error on record is that of a call some earlier execute visit made. */
  lemma {:induction false} TransientErrorsComeFromExecute(policy: BudgetPolicy, steps: seq<Step>, k: nat,
                                                          e: WorkflowError)
    returns (x: nat)
    requires ShippedRun(policy, steps) && k <= |steps| && e in StateAt(steps, k).errors && e.retryable
    ensures x < k && steps[x].node == Execute && steps[x].input.Executed? && e in StepErrors(steps[x].input.results)
  {
    hide StepState, StepErrors;
    if e in StateAt(steps, k - 1).errors {
      x := TransientErrorsComeFromExecute(policy, steps, k - 1, e);
    } else {
      x := k - 1;
      OneVisitAddsNoTransientError(steps, k - 1, e);
    }
  }

  // ---- The edges of a run, in terms of what its visits learned -------------------------------------------------

  /** Only a request classified as an upgrade is planned, and every plan is researched. */
  lemma RequestRoutes(policy: BudgetPolicy, steps: seq<Step>, k: nat)
    requires ShippedRun(policy, steps) && k + 1 < |steps|
    ensures steps[k].node == Supervisor ==>
              && steps[k].input.Classified?
              && steps[k + 1].node == if steps[k].input.workflowType == SubscriptionUpgrade then Planner else Escalate
    ensures steps[k].node == Planner ==> steps[k + 1].node == Research
  {
    assert Follows(policy, steps, k + 1);
  }

  /** Research leads to a decision exactly when it found an account and its evidence was sufficient. */
  lemma ResearchRoutes(policy: BudgetPolicy, steps: seq<Step>, k: nat)
    requires ShippedRun(policy, steps) && k + 1 < |steps| && steps[k].node == Research
    ensures steps[k + 1].node == if steps[k].input.Found? && steps[k].input.sufficient then Decide else Escalate
  {
    assert Follows(policy, steps, k + 1);
  }

  /**
   Every execute visit rests on a research visit of its own plan cycle that found sufficient evidence; the decision
   that cleared it came right after, and the account it acts on is the one found there.
   */
  lemma ExecuteHadEvidence(policy: BudgetPolicy, steps: seq<Step>, k: nat) returns (r: nat)
    requires ShippedRun(policy, steps) && k < |steps| && steps[k].node == Execute
    ensures r + 1 < k && steps[r].node == Research && ClearedBy(steps, r + 1, k)
    ensures steps[r].input.Found? && steps[r].input.sufficient && steps[r].input.evidence != []
    ensures StateAt(steps, k).accountId == Some(steps[r].input.accountId)
  {
    hide StateAt, Assessment.NeedsApproval, Assessment.DecisionRefused;
    var j := ExecuteIsCleared(policy, steps, k);
    assert Follows(policy, steps, j);
    r := j - 1;
    ResearchRoutes(policy, steps, r);
    SubjectStays(steps, j, k);
    AfterResearch(steps, r);
  }

  lemma AfterResearch(steps: seq<Step>, k: nat)
    requires k < |steps| && steps[k].node == Research && Fits(Research, steps[k].input) && steps[k].input.Found?
    ensures StateAt(steps, k + 1).accountId == Some(steps[k].input.accountId)
  {
  }

  /**
   After a decision: escalate exactly when there was no subject, no assessment or a blocker; else the gate exactly
   when a trigger fired, the specialist asked for a human, or its amount is not the local one; else execute.
   */
  lemma DecisionRoutes(policy: BudgetPolicy, steps: seq<Step>, k: nat)
    requires ShippedRun(policy, steps) && k + 1 < |steps| && steps[k].node == Decide
    ensures steps[k].input.Decided?
    ensures var assessment, consult := steps[k].input.assessment, steps[k].input.consult;
            steps[k + 1].node ==
            if !StateAt(steps, k).HasSubject() || assessment.Err? || assessment.value.blockers != [] then Escalate
            else if assessment.value.triggers != []
                    || (consult.Consulted? && consult.recommendation.approvalIndicated)
                    || (consult.Consulted? && consult.recommendation.amountDue != assessment.value.amountDue)
            then ApprovalGate else Execute
  {
    hide Assessment.DecideUpdate;
    assert Follows(policy, steps, k + 1);
    Assessment.DecisionSays(StateAt(steps, k), steps[k].input.assessment, steps[k].input.consult);
  }

  /** The gate leads to execute exactly when the row it read is APPROVED, and else to escalate. */
  lemma GateRoutes(policy: BudgetPolicy, steps: seq<Step>, k: nat)
    requires ShippedRun(policy, steps) && k + 1 < |steps| && steps[k].node == ApprovalGate
    ensures steps[k].input.GateRead?
    ensures steps[k + 1].node == if steps[k].input.recorded == Some(Approvals.Approved) then Execute else Escalate
  {
    assert Follows(policy, steps, k + 1);
  }

  /** Whatever execute came to, it is validated; the counter nodes lead back to it or to the planner. */
  lemma WorkRoutes(policy: BudgetPolicy, steps: seq<Step>, k: nat)
    requires ShippedRun(policy, steps) && k + 1 < |steps|
    ensures steps[k].node == Execute ==> steps[k + 1].node == Validate
    ensures steps[k].node == Retry ==> steps[k + 1].node == Execute
    ensures steps[k].node == Replan ==> steps[k + 1].node == Planner
    ensures steps[k].node == Notify ==> steps[k + 1].node == Complete
  {
    hide StateAt;
    assert Follows(policy, steps, k + 1);
  }

  /** The validate visit at `i` of the run read all three systems as holding the target. */
  ghost predicate ReadAgreement(steps: seq<Step>, i: nat)
    requires i < |steps|
  {
    && steps[i].node == Validate && StateAt(steps, i).HasSubject()
    && var target := StateAt(steps, i).targetPlan.value;
       steps[i].input == SystemsRead(Some((target, "active")), Some(target), Some(target))
  }

  /** The comparisons of a visit: none that is not PASS exactly when all three systems were read as agreeing. */
  lemma OneComparison(s: State, input: Input)
    requires input.SystemsRead? && s.HasSubject()
    ensures var target := s.targetPlan.value;
            var added := ValidateUpdate(s, input).validationResults;
            && added != []
            && ((forall r :: r in added ==> r.verdict == Pass)
                <==> input == SystemsRead(Some((target, "active")), Some(target), Some(target)))
            && (NeedsReview in Verdicts(added)
                <==> input.billing.None? || input.crmPlan.None? || input.tier.None?)
  {
    hide Validation.OverallVerdict;
    var e := Validation.Expected(s.targetPlan.value, "active", None);
    Validation.PassIffAgrees(e, Observation(input));
    var added := Validation.Checks(e, Observation(input));
    assert added[0].verdict in Verdicts(added) by { assert added[0] in added; }
    assert added[|added| - 1] in added && added[|added| - 2] in added;
  }

  /** Notify follows a validation exactly when this visit and every validation before it read agreement. */
  lemma NotifyIff(policy: BudgetPolicy, steps: seq<Step>, k: nat)
    requires ShippedRun(policy, steps) && k + 1 < |steps| && steps[k].node == Validate
    ensures steps[k + 1].node == Notify
            <==> forall i :: 0 <= i <= k && steps[i].node == Validate ==> ReadAgreement(steps, i)
  {
    hide StateAt, Verdicts, ValidateUpdate, ReadAgreement;
    assert Follows(policy, steps, k + 1);
    NotifyIffNothingButPass(StateAt(steps, k + 1), policy);
    DirtyIff(policy, steps, k + 1);
    ValidateHasSubject(policy, steps, k);
    AfterValidate(steps, k);
    OneComparison(StateAt(steps, k), steps[k].input);
  }

  /** Something but PASS is on record exactly when some validation so far did not read agreement. */
  lemma {:induction false} DirtyIff(policy: BudgetPolicy, steps: seq<Step>, k: nat)
    requires ShippedRun(policy, steps) && k <= |steps|
    ensures StateAt(steps, k).Dirty()
            <==> exists i :: 0 <= i < k && steps[i].node == Validate && !ReadAgreement(steps, i)
  {
    hide StepState, ValidateUpdate, Fits;
    if k > 0 {
      DirtyIff(policy, steps, k - 1);
      if steps[k - 1].node == Validate {
        ValidateHasSubject(policy, steps, k - 1);
        DirtyAfter(steps, k - 1);
      } else {
        NoResultsAdded(policy, steps, k - 1);
      }
    }
  }

  lemma NoResultsAdded(policy: BudgetPolicy, steps: seq<Step>, k: nat)
    requires ShippedRun(policy, steps) && k < |steps| && steps[k].node != Validate
    ensures StateAt(steps, k + 1).validationResults == StateAt(steps, k).validationResults
  {
    hide StateAt;
    OnlyValidateWritesResults(steps, k);
  }

  lemma DirtyAfter(steps: seq<Step>, k: nat)
    requires k < |steps| && steps[k].node == Validate && Fits(Validate, steps[k].input)
    requires StateAt(steps, k).HasSubject()
    ensures StateAt(steps, k + 1).Dirty() <==> StateAt(steps, k).Dirty() || !ReadAgreement(steps, k)
  {
    hide StateAt, ValidateUpdate;
    AfterValidate(steps, k);
    OneComparison(StateAt(steps, k), steps[k].input);
    var before, added := StateAt(steps, k).validationResults,
                         ValidateUpdate(StateAt(steps, k), steps[k].input).validationResults;
    assert StateAt(steps, k + 1).validationResults == before + added;
    assert forall r :: r in before + added <==> r in before || r in added;
  }

  /** A failed validation is replanned exactly if no system ever went unread, no retry follows and replans are left. */
  lemma ReplanIff(policy: BudgetPolicy, steps: seq<Step>, k: nat)
    requires ShippedRun(policy, steps) && k + 1 < |steps| && steps[k].node == Validate
    ensures var s := StateAt(steps, k + 1);
            steps[k + 1].node == Replan <==>
            && s.Dirty() && NeedsReview !in Verdicts(s.validationResults) && steps[k + 1].node != Retry
            && s.replanCount < policy.maxReplans
    ensures steps[k + 1].node in {Notify, Retry, Replan, Escalate}
  {
    hide StateAt, Verdicts;
    assert Follows(policy, steps, k + 1);
    var s := StateAt(steps, k + 1);
    NotifyIffNothingButPass(s, policy);
    if s.Dirty() {
      var r :| r in s.validationResults && r.verdict != Pass;
    }
  }

  /** The replans among the first `k` visits, and the retries since the last of them. */
  function ReplansMade(steps: seq<Step>, k: nat): nat
    requires k <= |steps|
  {
    if k == 0 then 0 else ReplansMade(steps, k - 1) + if steps[k - 1].node == Replan then 1 else 0
  }

  function RetriesMade(steps: seq<Step>, k: nat): nat
    requires k <= |steps|
  {
    if k == 0 || steps[k - 1].node == Replan then 0
    else RetriesMade(steps, k - 1) + if steps[k - 1].node == Retry then 1 else 0
  }

  /** The two counters count the visits of the two counter nodes, retries afresh after each replan. */
  lemma {:induction false} CountersCount(policy: BudgetPolicy, steps: seq<Step>, k: nat)
    requires ShippedRun(policy, steps) && k <= |steps|
    ensures StateAt(steps, k).replanCount == ReplansMade(steps, k)
    ensures StateAt(steps, k).retryCount == RetriesMade(steps, k)
  {
    hide Fits, ShippedUpdate;
    if k > 0 { CountersCount(policy, steps, k - 1); }
  }

  /** The account of the last research visit, among the first `k` visits, that found one. */
  function AccountFound(steps: seq<Step>, k: nat): Option<nat>
    requires k <= |steps|
  {
    if k == 0 then None
    else if steps[k - 1].node == Research && steps[k - 1].input.Found? then Some(steps[k - 1].input.accountId)
    else AccountFound(steps, k - 1)
  }

  /** A run acts for the target its request named, on the account its last successful research found. */
  lemma {:induction false} SubjectIsLearned(policy: BudgetPolicy, steps: seq<Step>, k: nat)
    requires ShippedRun(policy, steps) && 0 < k <= |steps|
    ensures steps[0].input.Classified? && StateAt(steps, k).targetPlan == steps[0].input.targetPlan
    ensures StateAt(steps, k).workflowType == steps[0].input.workflowType
    ensures StateAt(steps, k).accountId == AccountFound(steps, k)
  {
    hide StepState;
    assert StateAt(steps, 0).accountId == None;
    OneVisitLearns(steps, k - 1);
    if k > 1 {
      SupervisorIsFirst(policy, steps);
      SubjectIsLearned(policy, steps, k - 1);
    }
  }

  lemma OneVisitLearns(steps: seq<Step>, k: nat)
    requires k < |steps| && Fits(steps[k].node, steps[k].input)
    ensures var s, s', step := StateAt(steps, k), StateAt(steps, k + 1), steps[k];
            && (if step.node == Supervisor
                then step.input.Classified? && s'.targetPlan == step.input.targetPlan
                     && s'.workflowType == step.input.workflowType
                else s'.targetPlan == s.targetPlan && s'.workflowType == s.workflowType)
            && s'.accountId == if step.node == Research && step.input.Found? then Some(step.input.accountId)
                               else s.accountId
  {
    hide StateAt, StepErrors, StepResults;
    NextState(steps, k);
  }

  /** What one visit adds to the record of its run: evidence, steps, the approval it read, and how far the run is. */
  lemma VisitsLeave(steps: seq<Step>, k: nat)
    requires k < |steps| && Fits(steps[k].node, steps[k].input)
    ensures var s, s', n, input := StateAt(steps, k), StateAt(steps, k + 1), steps[k].node, steps[k].input;
            && s'.evidence == s.evidence + (if n == Research && input.Found? then input.evidence else [])
            && s'.executionResults == s.executionResults + (
                 if n == Execute && s.HasSubject() && input.Executed? then StepResults(input.results)
                 else if n == Notify then [ExecutionResult("notify", true)] else [])
            && s'.approvalId == (if n == ApprovalGate then Some(input.approvalId) else s.approvalId)
            && (n == ApprovalGate ==>
                  s'.approvalStatus == if input.recorded == Some(Approvals.Approved) then Granted else Rejected)
            && (n !in {ApprovalGate, Decide} ==> s'.approvalStatus == s.approvalStatus)
            && (n == Research ==> s'.metadata.evidenceSufficient == (input.Found? && input.sufficient))
            && (n !in {Research, Decide} ==> s'.metadata == s.metadata)
  {
    hide StateAt, StepResults, StepErrors;
    NextState(steps, k);
  }

  /** How far a run says it is after each of its visits, where that depends on nothing but the visit. */
  lemma StatusAfter(steps: seq<Step>, k: nat)
    requires k < |steps| && Fits(steps[k].node, steps[k].input)
    ensures var s, s', n, input := StateAt(steps, k), StateAt(steps, k + 1), steps[k].node, steps[k].input;
            && (n == Supervisor ==> s'.status == Planning) && (n == Planner ==> s'.status == Researching)
            && (n == Research && input.Found? ==> s'.status == Deciding)
            && (n == ApprovalGate ==>
                  s'.status == if input.recorded == Some(Approvals.Approved) then Executing else Escalated)
            && (n == Execute ==> s'.status == if s.HasSubject() && input.Executed? then Validating else Escalated)
            && (n in {Notify, Complete} ==> s'.status == Completed) && (n == Escalate ==> s'.status == Escalated)
            && (n in {Retry, Replan} ==> s'.status == s.status)
  {
    hide StateAt, StepResults, StepErrors;
    NextState(steps, k);
  }

  // ---- Where a run stands ----------------------------------------------------------------------------------

  /** The node a run stands at after its first `k` visits. */
  ghost function Standing(policy: BudgetPolicy, steps: seq<Step>, k: nat): Option<Node>
    requires k <= |steps|
  {
    if k == 0 then Some(Supervisor) else Next(steps[k - 1].node, StateAt(steps, k), policy)
  }

  lemma NextState(steps: seq<Step>, k: nat)
    requires k < |steps|
    ensures StateAt(steps, k + 1) == StepState(StateAt(steps, k), steps[k])
  {
  }
}
