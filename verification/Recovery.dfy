/**
 What stood behind the visits of a workflow: the moment of each call an execute visit made, what the records said
 when a decision let it through, and whose approval a retry rests on.
 */
module Recovery {
  import opened Common
  import opened Approvals
  import opened Protocol
  import opened Tools
  import Assessment
  import Eligibility
  import Graph
  import Nodes
  import Pricing
  import Routing
  import Thresholds

  // ---- The calls of an execute visit -----------------------------------------------------------------------

  /** One step keeps what a run's calls came to and the run they belong to, or is the run's next call. */
  lemma CallOrigin(s: Sys, step: Step, execution: nat)
    requires Enabled(s, step) && execution in Apply(s, step).made
    requires execution in s.made ==> Acts(s, execution, Routing.Execute)
    ensures execution in s.runs && execution in Apply(s, step).runs
            && Apply(s, step).runs[execution] == s.runs[execution] && Apply(s, step).policy == s.policy
    ensures Acts(s, execution, Routing.Execute) && Acts(Apply(s, step), execution, Routing.Execute)
    ensures || MadeBy(Apply(s, step), execution) == MadeBy(s, execution)
            || (step.WorkflowCall? && step.execution == execution
                && MadeBy(Apply(s, step), execution)
                   == MadeBy(s, execution) + [Execute(s.world, step.call, step.pick).result])
  {
    hide Execute, Nodes.StateAt, Nodes.Fits, Graph.Next, ReviewDecision, Callable;
  }

  lemma {:induction false} CallersExecute(s: Sys, steps: seq<Step>, k: nat, execution: nat)
    requires Trace(s, steps) && k <= |steps| && execution in SysAt(s, steps, k).made
    ensures k > 0 && Acts(SysAt(s, steps, k), execution, Routing.Execute)
  {
    hide Enabled, Apply, Acts;
    NextSys(s, steps, k - 1);
    if execution in SysAt(s, steps, k - 1).made { CallersExecute(s, steps, k - 1, execution); }
    CallOrigin(SysAt(s, steps, k - 1), steps[k - 1], execution);
  }

  /** The step makes call number `n` of the execute visit this run is about to end, with this result. */
  ghost predicate Makes(s: Sys, step: Step, execution: nat, n: nat, visits: seq<Nodes.Step>, result: ToolResult) {
    && Enabled(s, step) && step.WorkflowCall? && step.execution == execution
    && execution in s.runs && s.runs[execution] == visits
    && |MadeBy(s, execution)| == n && Execute(s.world, step.call, step.pick).result == result
  }

  /** Each result a run holds is that of a call it made, at a moment since it came to execute. */
  lemma {:induction false} CallMoment(s: Sys, steps: seq<Step>, k: nat, execution: nat, n: nat) returns (i: nat)
    requires Trace(s, steps) && k <= |steps| && n < |MadeBy(SysAt(s, steps, k), execution)|
    ensures execution in SysAt(s, steps, k).runs
    ensures var now := SysAt(s, steps, k);
            i < k && Makes(SysAt(s, steps, i), steps[i], execution, n, now.runs[execution], MadeBy(now, execution)[n])
  {
    hide Enabled, Apply, Acts;
    CallersExecute(s, steps, k, execution);
    NextSys(s, steps, k - 1);
    if execution in SysAt(s, steps, k - 1).made { CallersExecute(s, steps, k - 1, execution); }
    CallOrigin(SysAt(s, steps, k - 1), steps[k - 1], execution);
    if n < |MadeBy(SysAt(s, steps, k - 1), execution)| {
      i := CallMoment(s, steps, k - 1, execution, n);
    } else {
      i := k - 1;
    }
  }

  /** Every result an execute visit learned is that of a call made between the visit before it and itself. */
  lemma ExecuteVisitCalled(s: Sys, steps: seq<Step>, k: nat, execution: nat, v: nat, n: nat) returns (i: nat)
    requires Trace(s, steps) && k <= |steps| && execution in SysAt(s, steps, k).runs
    requires var run := SysAt(s, steps, k).runs[execution];
             v < |run| && run[v].node == Routing.Execute && run[v].input.Executed? && n < |run[v].input.results|
             && Nodes.StateAt(run, v).HasSubject()
    ensures var run := SysAt(s, steps, k).runs[execution];
            i < k && Makes(SysAt(s, steps, i), steps[i], execution, n, run[..v], run[v].input.results[n])
  {
    hide SysAt, Nodes.StateAt, Nodes.Fits, Graph.Next, Assesses, Makes, Trace;
    var run := SysAt(s, steps, k).runs[execution];
    var m := VisitHappened(s, steps, k, execution, v);
    NextSys(s, steps, m);
    assert run[..v] + run[v..] == run;
    Nodes.StatePrefix(run[..v], run[v..], v);
    i := CallMoment(s, steps, m, execution, n);
  }

  // ---- Retries rest on approvals ------------------------------------------------------------------------------

  /** A portal call that succeeded, or failed in passing, had been let through on a row that authorised it. */
  lemma WorthRepeatingWasAuthorised(s: Sys, step: Step, execution: nat, visits: seq<Nodes.Step>, result: ToolResult)
    requires Makes(s, step, execution, 2, visits, result)
    requires result.Ok? || Retryable(result.error)
    ensures step.call.work.Provision? && step.call.consume && NeedsRow(step.call) && step.pick.Some?
    ensures step.pick.value in s.Approvals() && Authorises(s.Approvals()[step.pick.value], step.call)
    ensures s.Approvals()[step.pick.value].executionId == execution
  {
    hide Nodes.StateAt, Graph.Next, Authorises, OnlyThisAccount;
    WorkflowStaysOnItsAccount(s, execution, step.call, step.pick);
    HandlerEnteredIff(s.world, step.call, step.pick);
    RefusalsAreFinal(s.world, step.call, step.pick);
    AuthorisesItsExecution(s.Approvals()[step.pick.value], step.call);
  }

  lemma RefusalsAreFinal(w: World, call: Call, pick: Option<nat>)
    ensures var o := Execute(w, call, pick);
            !o.called ==> o.result.Err? && !Retryable(o.result.error)
  {
  }

  lemma AuthorisesItsExecution(row: Approval, call: Call)
    requires NeedsRow(call) && Authorises(row, call)
    ensures Some(row.executionId) == call.executionId && row.status == Approved
  {
  }

  /** The step is the portal call of this execution, let through by an approved row that log entry `d` decided. */
  ghost predicate ProvisionedWithApproval(s: Sys, step: Step, execution: nat, d: nat) {
    && step.WorkflowCall? && step.execution == execution && step.call.work.Provision?
    && NeedsRow(step.call) && step.pick.Some? && step.pick.value in s.Approvals()
    && var row := s.Approvals()[step.pick.value];
       && Authorises(row, step.call) && HasAskedFor(s, execution, row.amount)
       && d < |s.log| && Decides(s.log[d], step.pick.value, row) && s.log[d].approved
  }

  /**
   Every retry repeats work a human approved: since the visit before the execute visit it follows, the portal was
   called under a row of the same execution that some decision of the run had asked for, and that was approved,
   with authority, unspent and fresh at that moment. A plan whose calls were refused is never retried.
   */
  lemma RetryWasAuthorised(s: Sys, steps: seq<Step>, k: nat, execution: nat, at: nat) returns (i: nat, d: nat)
    requires Trace(s, steps) && k <= |steps| && execution in SysAt(s, steps, k).runs
    requires var run := SysAt(s, steps, k).runs[execution];
             at < |run| && run[at].node == Routing.Retry
    ensures var run := SysAt(s, steps, k).runs[execution];
            && at > 2 && run[at - 2].node == Routing.Execute
            && i < k && execution in SysAt(s, steps, i).runs && SysAt(s, steps, i).runs[execution] == run[..at - 2]
            && ProvisionedWithApproval(SysAt(s, steps, i), steps[i], execution, d)
  {
    hide SysAt, Trace, Nodes.ShippedRun, Nodes.StateAt, LogOk, RunsOk, Authorises, NeedsRow, HasAskedFor, Enabled;
    ReachableInv(s, steps, k);
    var now := SysAt(s, steps, k);
    var run := now.runs[execution];
    RetryHadASubject(now, execution, at);
    i := ExecuteVisitCalled(s, steps, k, execution, at - 2, 2);
    var before := SysAt(s, steps, i);
    WorthRepeatingWasAuthorised(before, steps[i], execution, run[..at - 2], run[at - 2].input.results[2]);
    var row := steps[i].pick.value;
    AuthorisesItsExecution(before.Approvals()[row], steps[i].call);
    RowsAreAskedFor(s, steps, i);
    ReachableInv(s, steps, i);
    assert RowOk(before.log, row, before.Approvals()[row]);
    d :| 0 <= d < |before.log| && Decides(before.log[d], row, before.Approvals()[row]);
  }

  lemma RetryHadASubject(s: Sys, execution: nat, at: nat)
    requires RunsOk(s) && execution in s.runs && at < |s.runs[execution]| && s.runs[execution][at].node == Routing.Retry
    ensures var run := s.runs[execution];
            && at > 2 && run[at - 2].node == Routing.Execute && run[at - 2].input.Executed?
            && Nodes.WorthRepeating(run[at - 2].input.results) && Nodes.StateAt(run, at - 2).HasSubject()
  {
    hide Nodes.StateAt, Nodes.StepErrors;
    Nodes.RetryRepeatsWork(s.policy, s.runs[execution], at);
    Nodes.ValidateHasSubject(s.policy, s.runs[execution], at - 1);
    Nodes.OneVisitKeepsSubject(s.runs[execution], at - 2);
  }

  /** A workflow none of whose decisions asked for approval is never retried, whatever its budget. */
  lemma WithoutARequestNoRetry(s: Sys, steps: seq<Step>, k: nat, execution: nat)
    requires Trace(s, steps) && k <= |steps| && execution in SysAt(s, steps, k).runs
    requires !HasAsked(SysAt(s, steps, k), execution)
    ensures forall at :: 0 <= at < |SysAt(s, steps, k).runs[execution]| ==>
              SysAt(s, steps, k).runs[execution][at].node != Routing.Retry
  {
    hide SysAt, HasAsked, HasAskedFor, Decides, Authorises, NeedsRow, Trace;
    var run := SysAt(s, steps, k).runs[execution];
    if at :| 0 <= at < |run| && run[at].node == Routing.Retry {
      var i, d := RetryWasAuthorised(s, steps, k, execution, at);
      var row := SysAt(s, steps, i).Approvals()[steps[i].pick.value];
      assert run[..at - 2] <= run;
      AskedStays(SysAt(s, steps, i), SysAt(s, steps, k), execution, row.amount);
      AskedHasARun(SysAt(s, steps, k), execution, row.amount);
      assert false;
    }
  }

  // ---- Executions rest on eligible accounts -------------------------------------------------------------------

  /** The target is on sale, and the account is on another plan in an active subscription. */
  ghost predicate Upgradable(systems: Systems, account: nat, target: string) {
    && account in systems.accounts && target in systems.plans && systems.plans[target]
    && exists id :: ActiveSubscription(systems, account, id) && systems.subscriptions[id].planCode != target
  }

  lemma EligibleIsUpgradable(systems: Systems, account: nat, target: string, r: Assessment.Records, now: int,
                             policy: Thresholds.ApprovalPolicy)
    requires Describes(systems, account, target, r)
    requires Assessment.AssessUpgrade(r, now, policy).Ok?
             && Assessment.AssessUpgrade(r, now, policy).value.blockers == []
    ensures Upgradable(systems, account, target)
  {
    hide Pricing.CalculateProration, Eligibility.Blockers, Thresholds.Triggers;
    var context := Assessment.LocalContext(r.standing.value, r, now);
    Eligibility.EligibleIffNothingBlocks(context);
    assert !Eligibility.Blocks(Eligibility.NotAnUpgrade, context);
    assert !Eligibility.Blocks(Eligibility.TargetPlanInactive, context);
    var id :| ActiveSubscription(systems, account, id)
              && systems.subscriptions[id].planCode == r.subscription.value.plan.code;
    assert systems.subscriptions[id].planCode != target;
  }

  /**
   Every execute visit was cleared by a decision of its own plan cycle, and when that decision was made the target
   was on sale and the run's account had an active subscription to another plan.
   */
  lemma ExecuteWasEligible(s: Sys, steps: seq<Step>, k: nat, execution: nat, at: nat) returns (j: nat, i: nat)
    requires Trace(s, steps) && k <= |steps| && execution in SysAt(s, steps, k).runs
    requires var run := SysAt(s, steps, k).runs[execution];
             at < |run| && run[at].node == Routing.Execute
    ensures var run := SysAt(s, steps, k).runs[execution];
            && j < at && Nodes.ClearedBy(run, j, at)
            && i < k && execution in SysAt(s, steps, i).runs && SysAt(s, steps, i).runs[execution] == run[..j]
            && Nodes.StateAt(run, at).HasSubject()
            && var state := Nodes.StateAt(run, at);
               Upgradable(SysAt(s, steps, i).world.records.systems, state.accountId.value, state.targetPlan.value)
  {
    hide SysAt, Trace, Nodes.ShippedRun, Nodes.StateAt, Nodes.Standing, RowsOk, LogOk, GatesOk;
    hide Describes, Upgradable, Assessment.AssessUpgrade;
    ReachableInv(s, steps, k);
    var now := SysAt(s, steps, k);
    var run := now.runs[execution];
    j := Nodes.ExecuteIsCleared(now.policy, run, at);
    i := VisitHappened(s, steps, k, execution, j);
    NextSys(s, steps, i);
    assert run[..j] + run[j..] == run;
    Nodes.StatePrefix(run[..j], run[j..], j);
    CycleKeepsSubject(now, execution, j, at);
    var before := SysAt(s, steps, i);
    var state := StateOf(before, execution);
    var r :| Describes(before.world.records.systems, state.accountId.value, state.targetPlan.value, r)
             && run[j].input.assessment == Assessment.AssessUpgrade(r, before.now, before.thresholds);
    EligibleIsUpgradable(before.world.records.systems, state.accountId.value, state.targetPlan.value, r, before.now,
                         before.thresholds);
  }

  lemma CycleKeepsSubject(s: Sys, execution: nat, j: nat, k: nat)
    requires RunsOk(s) && execution in s.runs && j < k < |s.runs[execution]| && Nodes.ClearedBy(s.runs[execution], j, k)
    ensures var run := s.runs[execution];
            && Nodes.StateAt(run, k).accountId == Nodes.StateAt(run, j).accountId
            && Nodes.StateAt(run, k).targetPlan == Nodes.StateAt(run, j).targetPlan
  {
    hide Nodes.StateAt;
    Nodes.SubjectStays(s.runs[execution], j, k);
  }
}
