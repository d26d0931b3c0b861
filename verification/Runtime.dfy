/**
 The tool runtime over a mutable session: rows are changed in place inside a savepoint, restored when the
 handler raises, and the attempt is recorded outside it. Proved against the one-step specification in Tools.
 */
module Runtime {
  import opened Common
  import opened Approvals
  import opened Permissions
  import opened Tools
  import Nodes
  import State

  /** The legacy portal: a system of its own, which no savepoint covers. */
  class LegacyPortal {
    var tiers: Portal

    constructor (tiers: Portal)
      ensures this.tiers == tiers
    {
      this.tiers := tiers;
    }

    /** Submit a tier change and read the confirmation; the reply is the portal's. */
    method SetTier(account: nat, tier: string, reply: PortalReply) returns (result: ToolResult)
      modifies this
      ensures var nothing := Records(map[], Systems(map[], map[], map[]));
              var run := Effect(Provision(account, tier, reply), nothing, old(tiers));
              tiers == run.portal && result == run.result
    {
      match reply
      case Confirms(confirmed) =>
        tiers := tiers[account := confirmed];
        result := Ok(Provisioned(tier, confirmed));
      case Fails(error, left) =>
        if left.Some? {
          tiers := tiers[account := left.value];
        }
        result := Err(PortalErrorCode(error));
    }
  }

  class Session {
    var approvals: map<nat, Approval>
    var systems: Systems
    var toolCalls: seq<ToolCallRow>
    var events: seq<Event>
    var users: map<nat, User>

    constructor (approvals: map<nat, Approval>, systems: Systems, users: map<nat, User>)
      ensures this.approvals == approvals && this.systems == systems && this.users == users
      ensures toolCalls == [] && events == []
    {
      this.approvals, this.systems, this.users := approvals, systems, users;
      toolCalls, events := [], [];
    }

    function Now(): Records
      reads this`approvals, this`systems
    {
      Records(approvals, systems)
    }

    /** The session and the portal as one value. */
    function Snapshot(portal: LegacyPortal): World
      reads this, portal
    {
      World(Now(), portal.tiers, toolCalls, events)
    }

    // -- The services behind the mutating tools --------------------------------------------------

    /** Move a subscription onto another plan, if there is such a subscription. */
    method ApplyPlanChange(subscription: nat, planCode: string) returns (found: bool)
      modifies this`systems
      ensures found == (subscription in old(systems).subscriptions)
      ensures systems == if found
              then old(systems).(subscriptions := old(systems).subscriptions[
                     subscription := old(systems).subscriptions[subscription].(planCode := planCode)])
              else old(systems)
    {
      found := subscription in systems.subscriptions;
      if found {
        var sub := systems.subscriptions[subscription];
        systems := systems.(subscriptions := systems.subscriptions[subscription := sub.(planCode := planCode)]);
      }
    }

    /** Sync the CRM's copy of the plan, if there is such an account. */
    method UpdateAccountPlanReference(account: nat, planCode: string, changedAt: int) returns (found: bool)
      modifies this`systems
      ensures found == (account in old(systems).accounts)
      ensures systems == if found
              then old(systems).(accounts := old(systems).accounts[account := Account(Some(planCode), Some(changedAt))])
              else old(systems)
    {
      found := account in systems.accounts;
      if found {
        systems := systems.(accounts := systems.accounts[account := Account(Some(planCode), Some(changedAt))]);
      }
    }

    method UpdateSubscription(subscription: nat, planCode: string) returns (result: ToolResult)
      modifies this`systems
      ensures (systems, result) == ChangePlanEffect(old(systems), subscription, planCode)
    {
      if subscription !in systems.subscriptions {
        return Err(ErrNotFound);
      }
      if planCode !in systems.plans {
        return Err(ErrNotFound);
      }
      if !systems.plans[planCode] {
        return Err(ErrPreconditionFailed);
      }
      var previous := systems.subscriptions[subscription].planCode;
      var _ := ApplyPlanChange(subscription, planCode);
      result := Ok(PlanChanged(previous, planCode));
    }

    /** Run the handler on the live session and portal. It may leave anything half done when it fails. */
    method RunHandler(work: Work, portal: LegacyPortal) returns (result: ToolResult)
      modifies this`approvals, this`systems, portal
      ensures HandlerRun(Now(), portal.tiers, result) == Effect(work, old(Now()), old(portal.tiers))
    {
      match work
      case ChangePlan(subscription, planCode) =>
        result := UpdateSubscription(subscription, planCode);
      case SyncCrm(account, planCode, at) =>
        var found := UpdateAccountPlanReference(account, planCode, at);
        result := if found then Ok(CrmSynced(planCode)) else Err(ErrNotFound);
      case Provision(account, tier, reply) =>
        result := portal.SetTier(account, tier, reply);
      case Custom(run) =>
        var outcome := run(Now(), portal.tiers);
        approvals, systems := outcome.records.approvals, outcome.records.systems;
        portal.tiers := outcome.portal;
        result := outcome.result;
    }

    // -- Approval verification ---------------------------------------------------------------------

    /** Find the row for this act and check it; mark it spent when asked to. */
    method VerifyApproval(requirement: Requirement, consume: bool, now: int)
      returns (pick: Option<nat>, refusal: Option<ErrorCode>)
      modifies this`approvals
      ensures LookedUp(old(approvals), requirement, pick)
      ensures refusal == RowRefusal(old(approvals), pick, now, DEFAULT_AUTHORITY)
      ensures approvals == if refusal.None? && consume
                           then old(approvals)[pick.value := old(approvals)[pick.value].(consumedAt := Some(now))]
                           else old(approvals)
    {
      var matching := set id | id in approvals && Matches(approvals[id], requirement);
      if matching == {} {
        forall id | id in approvals ensures !Matches(approvals[id], requirement) {
          assert id !in matching;
        }
        return None, Some(ErrApprovalRequired);
      }
      var first :| first in matching;
      pick := Some(first);
      var row := approvals[first];
      if row.status != Approved {
        return pick, Some(ErrApprovalNotGranted);
      }
      if row.consumedAt.Some? {
        return pick, Some(ErrApprovalAlreadyConsumed);
      }
      if IsStale(row.decidedAt, now, DEFAULT_AUTHORITY) {
        return pick, Some(ErrApprovalNotGranted);
      }
      if consume {
        approvals := approvals[first := row.(consumedAt := Some(now))];
      }
      refusal := None;
    }

    /** Inside the savepoint: verify approval where required, then run the handler. */
    method AuthoriseAndRun(call: Call, policy: ToolPolicy, portal: LegacyPortal)
      returns (result: ToolResult, called: bool, pick: Option<nat>)
      requires CheckPermission(call.role, call.tool) == Ok(policy)
      modifies this`approvals, this`systems, portal
      ensures NeedsRow(call) ==> LookedUp(old(approvals), RequirementOf(call), pick)
      ensures var refusal := Refusal(old(approvals), call, pick);
              if refusal.Some?
              then !called && result == Err(refusal.value) && Now() == old(Now()) && portal.tiers == old(portal.tiers)
              else called && HandlerRun(Now(), portal.tiers, result)
                             == Effect(call.work, Spend(old(Now()), call, pick), old(portal.tiers))
    {
      called, pick := false, None;
      if policy.mutating {
        if call.executionId.None? {
          return Err(ErrApprovalRequired), called, pick;
        }
        if call.entity.None? {
          return Err(ErrInvalidInput), called, pick;
        }
        var refusal;
        pick, refusal := VerifyApproval(
          Requirement(call.executionId.value, ActionOf(call, policy), call.entity.value), call.consume, call.now);
        if refusal.Some? {
          return Err(refusal.value), called, pick;
        }
      }
      called := true;
      result := RunHandler(call.work, portal);
    }

    /** The row and the events of one attempt; the selected event is already on the record. */
    method Record(call: Call, called: bool, result: ToolResult, approvalId: Option<nat>)
      modifies this`toolCalls, this`events
      ensures toolCalls == old(toolCalls)
                           + [ToolCallRow(call.executionId, call.tool, result.Ok?, CodeOf(result), approvalId)]
      ensures |events| >= |old(events)| && events[..|old(events)|] == old(events)
      ensures [ToolSelected(call.executionId, call.tool)] + events[|old(events)|..]
              == AttemptEvents(call, called, result)
    {
      toolCalls := toolCalls + [ToolCallRow(call.executionId, call.tool, result.Ok?, CodeOf(result), approvalId)];
      if called {
        events := events + [ToolCalled(call.executionId, call.tool)];
      }
      events := events + [ToolCompleted(call.executionId, call.tool, result.Ok?, CodeOf(result))];
    }

    /**
     The single path every tool call takes. Whatever happens inside the savepoint, the session and the
     portal end up exactly as the one-step specification says, for some row the lookup could have found.
     */
    method ExecuteTool(call: Call, portal: LegacyPortal) returns (result: ToolResult, pick: Option<nat>)
      modifies this`approvals, this`systems, this`toolCalls, this`events, portal
      ensures NeedsRow(call) ==> LookedUp(old(approvals), RequirementOf(call), pick)
      ensures var outcome := Execute(old(Snapshot(portal)), call, pick);
              Snapshot(portal) == outcome.world && result == outcome.result
      ensures result.Ok? && Mutates(call.tool) ==>
                pick.Some? && pick.value in old(approvals) && Concerns(old(approvals)[pick.value], call)
    {
      ghost var before := events;
      events := events + [ToolSelected(call.executionId, call.tool)];
      ghost var selected := events;
      pick := None;
      var called := false;
      var permission := CheckPermission(call.role, call.tool);
      if permission.Err? {
        result := Err(if permission.error == UnknownTool then ErrInvalidInput else ErrPermissionDenied);
      } else {
        var savepoint := Now();
        result, called, pick := AuthoriseAndRun(call, permission.value, portal);
        if result.Err? {
          approvals, systems := savepoint.approvals, savepoint.systems;
        }
      }
      Record(call, called, result, if result.Ok? && NeedsRow(call) then pick else None);
      assert events == selected + events[|selected|..];
      assert selected == before + [ToolSelected(call.executionId, call.tool)];
      assert events == before + ([ToolSelected(call.executionId, call.tool)] + events[|selected|..]);
    }

    // -- The approval gate and the decision endpoint --------------------------------------------------

    /** Write the PENDING row a human will decide on, and the request event, under a fresh identifier. */
    method RequestApproval(row: nat, execution: nat, account: nat, amount: Option<int>, now: int)
      requires row !in approvals
      modifies this`approvals, this`events
      ensures approvals == old(approvals)[row := PendingRow(execution, account, amount, now)]
      ensures events == old(events) + [ApprovalRequested(execution, row)]
    {
      approvals := approvals[row := PendingRow(execution, account, amount, now)];
      events := events + [ApprovalRequested(execution, row)];
    }

    /** Record a human decision, or say why not; a refused attempt leaves the row alone. */
    method DecideApproval(row: nat, user: nat, approved: bool, now: int, policy: AuthorityPolicy)
      returns (reply: DecisionReply)
      modifies this`approvals, this`events
      ensures reply == ReviewDecision(old(approvals), users, row, user, policy)
      ensures approvals == if reply == Recorded
                           then old(approvals)[row := DecidedRow(old(approvals)[row], user, approved, now)]
                           else old(approvals)
      ensures events == if reply == Recorded
                        then old(events) + [ApprovalReceived(old(approvals)[row].executionId, row, approved)]
                        else old(events)
    {
      if row !in approvals {
        return NoSuchApproval;
      }
      var approval := approvals[row];
      var decidable := CheckDecidable(approval.status, approval.consumedAt);
      if decidable.Some? {
        return NotDecidable(decidable.value);
      }
      var authority := CheckAuthority(Lookup(users, user), approval.amount, policy);
      if authority.Some? {
        return NotPermitted(authority.value);
      }
      approvals := approvals[row := approval.(status := if approved then Approved else Rejected,
                                              decidedAt := Some(now), decidedBy := Some(user))];
      events := events + [ApprovalReceived(approval.executionId, row, approved)];
      reply := Recorded;
    }

    // -- The execute node --------------------------------------------------------------------------------

    /**
     Apply the upgrade: billing, then the CRM, then the portal where one is configured, each through the
     runtime, all under the same approval, which only the last call spends. `waits` is the time that passes
     before each call. The visit learns what became of each step, and which errors to put on the state.
     */
    method ExecuteUpgrade(execution: nat, account: nat, target: string, portal: LegacyPortal,
                          reply: Option<PortalReply>, now: int, waits: (nat, nat, nat))
      returns (run: UpgradeRun)
      modifies this`approvals, this`systems, this`toolCalls, this`events, portal
      ensures run.NoSubscription? <==> SubscriptionsOf(old(systems), account) == {}
      ensures !run.Ran? ==> Snapshot(portal) == old(Snapshot(portal))
      ensures run.Ran? ==>
                && SubscriptionsOf(old(systems), account) == {run.subscription}
                && UpgradeMade(old(Snapshot(portal)), execution, account, target, now, run.calls)
                && |run.calls| == (if reply.Some? then 3 else 2)
                && (reply.Some? ==> run.calls[2].0.work == Provision(account, target, reply.value))
                && CallsMade(old(Snapshot(portal)), Requirement(execution, UPGRADE, AccountEntity(account)),
                             run.calls, run.results)
                && Snapshot(portal) == AfterCalls(old(Snapshot(portal)), run.calls, |run.calls|)
                && run.steps == Nodes.StepResults(run.results) && run.errors == Nodes.StepErrors(run.results)
    {
      hide Execute, NeedsRow, RequirementOf, LookedUp, UpgradeMade, AfterCalls, CallsMade;
      hide BillingCall, CrmCall, PortalCall;
      hide Nodes.StepResults, Nodes.StepErrors, Nodes.PortalErrorsOf, Nodes.MatchesRequest, Nodes.ErrorEntry;
      var found := SubscriptionsOf(systems, account);
      if found == {} {
        return NoSubscription;
      }
      var subscription :| subscription in found;
      if found != {subscription} {
        return SeveralSubscriptions;
      }
      ghost var w := Snapshot(portal);
      ghost var r := Requirement(execution, UPGRADE, AccountEntity(account));
      var steps, errors := [], [];
      var calls: seq<(Call, Option<nat>)>, results: seq<ToolResult> := [], [];
      NoCalls(w, r);
      var billing := BillingCall(execution, account, subscription, target, now + waits.0);
      UpgradeCallLooks(billing, execution, account, subscription, target);
      var planChange, p1 := ExecuteTool(billing, portal);
      NextCall(w, r, calls, results, billing, p1);
      calls, results := calls + [(billing, p1)], results + [planChange];
      steps := steps + [State.ExecutionResult("update_subscription", planChange.Ok?)];
      if planChange.Err? {
        errors := errors + [Nodes.ErrorEntry(planChange.error)];
      }
      assert errors == Nodes.ErrorsOf(planChange);
      var crm := CrmCall(execution, account, target, now + waits.0 + waits.1);
      UpgradeCallLooks(crm, execution, account, subscription, target);
      var crmSync, p2 := ExecuteTool(crm, portal);
      NextCall(w, r, calls, results, crm, p2);
      calls, results := calls + [(crm, p2)], results + [crmSync];
      steps := steps + [State.ExecutionResult("update_crm", crmSync.Ok?)];
      if crmSync.Err? {
        errors := errors + [Nodes.ErrorEntry(crmSync.error)];
      }
      assert errors == Nodes.ErrorsOf(planChange) + Nodes.ErrorsOf(crmSync);
      if reply.None? {
        steps := steps + [State.ExecutionResult("update_entitlement", false)];
        errors := errors + [Nodes.ErrorEntry(ErrPreconditionFailed)];
      } else {
        var provision := PortalCall(execution, account, target, reply.value, now + waits.0 + waits.1 + waits.2);
        UpgradeCallLooks(provision, execution, account, subscription, target);
        var provisioned, p3 := ExecuteTool(provision, portal);
        NextCall(w, r, calls, results, provision, p3);
        calls, results := calls + [(provision, p3)], results + [provisioned];
        steps := steps + [State.ExecutionResult("update_entitlement", provisioned.Ok?)];
        if provisioned.Err? {
          errors := errors + [Nodes.ErrorEntry(provisioned.error)];
        } else if !Nodes.MatchesRequest(provisioned.value) {
          errors := errors + [Nodes.ErrorEntry(ErrPreconditionFailed)];
        }
        assert errors == Nodes.ErrorsOf(planChange) + Nodes.ErrorsOf(crmSync) + Nodes.PortalErrorsOf(provisioned) by {
          Nodes.PortalErrors(provisioned);
        }
      }
      MadeThis(w, execution, account, subscription, target, now, waits, reply, calls, results);
      LearnedThis(results, errors, steps);
      run := Ran(subscription, calls, results, steps, errors);
    }
  }

  /** What the execute node did: its calls, each with the row found for it, their results, and what it reports. */
  datatype UpgradeRun =
    | NoSubscription
    | SeveralSubscriptions // the lookup raises: no visit
    | Ran(subscription: nat, calls: seq<(Call, Option<nat>)>, results: seq<ToolResult>,
          steps: seq<State.ExecutionResult>, errors: seq<State.WorkflowError>)

  /** Each of the three calls looks for the workflow's row, and the last one provisions what it was given. */
  lemma UpgradeCallLooks(call: Call, execution: nat, account: nat, subscription: nat, target: string)
    requires || (exists t :: call == BillingCall(execution, account, subscription, target, t))
             || (exists t :: call == CrmCall(execution, account, target, t))
             || (exists reply, t :: call == PortalCall(execution, account, target, reply, t))
    ensures NeedsRow(call) && RequirementOf(call) == Requirement(execution, UPGRADE, AccountEntity(account))
    ensures forall reply, t :: call == PortalCall(execution, account, target, reply, t) ==>
              call.work == Provision(account, target, reply)
  {
    UpgradeCallsShareARow(call, execution, account);
  }

  lemma LearnedThis(results: seq<ToolResult>, errors: seq<State.WorkflowError>, steps: seq<State.ExecutionResult>)
    requires 2 <= |results| <= 3
    requires errors == Nodes.ErrorsOf(results[0]) + Nodes.ErrorsOf(results[1])
                       + if |results| == 3 then Nodes.PortalErrorsOf(results[2])
                         else [Nodes.ErrorEntry(ErrPreconditionFailed)]
    requires steps == [State.ExecutionResult("update_subscription", results[0].Ok?),
                       State.ExecutionResult("update_crm", results[1].Ok?),
                       State.ExecutionResult("update_entitlement", |results| == 3 && results[2].Ok?)]
    ensures steps == Nodes.StepResults(results) && errors == Nodes.StepErrors(results)
  {
  }

  lemma MadeThis(w: World, execution: nat, account: nat, subscription: nat, target: string, now: int,
                 waits: (nat, nat, nat), reply: Option<PortalReply>, calls: seq<(Call, Option<nat>)>,
                 results: seq<ToolResult>)
    requires |calls| == (if reply.Some? then 3 else 2) && SubscriptionsOf(w.records.systems, account) == {subscription}
    requires calls[0].0 == BillingCall(execution, account, subscription, target, now + waits.0)
    requires calls[1].0 == CrmCall(execution, account, target, now + waits.0 + waits.1)
    requires reply.Some? ==>
               calls[2].0 == PortalCall(execution, account, target, reply.value, now + waits.0 + waits.1 + waits.2)
    requires CallsMade(w, Requirement(execution, UPGRADE, AccountEntity(account)), calls, results)
    ensures UpgradeMade(w, execution, account, target, now, calls)
  {
    hide LookedUp, AfterCalls, Execute;
  }

  lemma NoCalls(w: World, r: Requirement)
    ensures CallsMade(w, r, [], []) && AfterCalls(w, [], 0) == w
  {
  }
}
