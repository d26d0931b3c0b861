/**
 What one tool call does to the world, in one step: the all-or-nothing specification of the tool runtime.
 The database records either take the whole effect of the call (with the approval it spent) or none of it;
 the attempt is recorded either way; the portal is outside the database and keeps whatever was done to it.
 */
module Tools {
  import opened Common
  import opened Approvals
  import opened Permissions

  // ---- The systems of record ---------------------------------------------------------------------------

  datatype Subscription = Subscription(account: nat, planCode: string, status: string, seats: nat)

  datatype Account = Account(currentPlanCode: Option<string>, lastPlanChangeAt: Option<int>)

  /** Plans map to whether they are on sale. */
  datatype Systems = Systems(
    subscriptions: map<nat, Subscription>, accounts: map<nat, Account>, plans: map<string, bool>)

  /** Everything the savepoint covers. */
  datatype Records = Records(approvals: map<nat, Approval>, systems: Systems)

  type Portal = map<nat, string>

  // ---- Results ---------------------------------------------------------------------------------------------

  datatype ErrorCode =
    | ErrPermissionDenied | ErrApprovalRequired | ErrApprovalNotGranted | ErrApprovalAlreadyConsumed
    | ErrNotFound | ErrInvalidInput | ErrPreconditionFailed
    | ErrUpstreamTimeout | ErrUpstreamError | ErrInternal

  /** Codes for which the identical call may be worth another try. */
  predicate Retryable(code: ErrorCode) {
    code == ErrUpstreamTimeout || code == ErrUpstreamError
  }

  datatype Payload =
    | PlanChanged(previous: string, current: string)
    | CrmSynced(current: string)
    | Provisioned(requested: string, confirmed: string)
    | Answer

  type ToolResult = Result<Payload, ErrorCode>

  // ---- Handlers --------------------------------------------------------------------------------------------

  /** What a handler left behind. A handler that raises may leave records half changed. */
  datatype HandlerRun = HandlerRun(records: Records, portal: Portal, result: ToolResult)

  datatype PortalError =
    LoginFailed | PortalAccountNotFound | TierRejected | ConfirmationMissing | Timeout | BrowserUnavailable | Unexpected

  function PortalErrorCode(e: PortalError): ErrorCode {
    match e
    case Timeout => ErrUpstreamTimeout
    case LoginFailed => ErrUpstreamError
    case BrowserUnavailable => ErrUpstreamError
    case PortalAccountNotFound => ErrNotFound
    case TierRejected => ErrPreconditionFailed
    case ConfirmationMissing => ErrPreconditionFailed
    case Unexpected => ErrInternal
  }

  /** How the portal answers a tier change: what it confirms, or an error and the tier it is left with. */
  datatype PortalReply = Confirms(tier: string) | Fails(error: PortalError, left: Option<string>)

  /** The work behind a tool call. `Custom` stands for any other handler, however it behaves. */
  datatype Work =
    | ChangePlan(subscription: nat, planCode: string)
    | SyncCrm(account: nat, planCode: string, at: int)
    | Provision(account: nat, tier: string, reply: PortalReply)
    | Custom(run: (Records, Portal) -> HandlerRun)

  function ChangePlanEffect(sys: Systems, subscription: nat, planCode: string): (Systems, ToolResult) {
    if subscription !in sys.subscriptions then (sys, Err(ErrNotFound))
    else if planCode !in sys.plans then (sys, Err(ErrNotFound))
    else if !sys.plans[planCode] then (sys, Err(ErrPreconditionFailed))
    else
      var sub := sys.subscriptions[subscription];
      (sys.(subscriptions := sys.subscriptions[subscription := sub.(planCode := planCode)]),
       Ok(PlanChanged(sub.planCode, planCode)))
  }

  function SyncCrmEffect(sys: Systems, account: nat, planCode: string, at: int): (Systems, ToolResult) {
    if account !in sys.accounts then (sys, Err(ErrNotFound))
    else (sys.(accounts := sys.accounts[account := Account(Some(planCode), Some(at))]), Ok(CrmSynced(planCode)))
  }

  function Effect(work: Work, records: Records, portal: Portal): HandlerRun {
    match work
    case ChangePlan(subscription, planCode) =>
      var (sys, result) := ChangePlanEffect(records.systems, subscription, planCode);
      HandlerRun(records.(systems := sys), portal, result)
    case SyncCrm(account, planCode, at) =>
      var (sys, result) := SyncCrmEffect(records.systems, account, planCode, at);
      HandlerRun(records.(systems := sys), portal, result)
    case Provision(account, tier, Confirms(confirmed)) =>
      HandlerRun(records, portal[account := confirmed], Ok(Provisioned(tier, confirmed)))
    case Provision(account, _, Fails(error, left)) =>
      HandlerRun(records, if left.Some? then portal[account := left.value] else portal, Err(PortalErrorCode(error)))
    case Custom(run) => run(records, portal)
  }

  // ---- A call -----------------------------------------------------------------------------------------------

  /** One call of the tool layer: who calls what, for which workflow and entity, and at what time. */
  datatype Call = Call(
    role: Role, tool: Tool, executionId: Option<nat>, entity: Option<Entity>, action: Option<string>,
    consume: bool, work: Work, now: int)

  /** The exact act an approval must authorise. */
  datatype Requirement = Requirement(executionId: nat, action: string, entity: Entity)

  function ActionOf(call: Call, policy: ToolPolicy): string {
    if call.action.Some? && call.action.value != "" then call.action.value else policy.approvalAction
  }

  predicate Matches(a: Approval, r: Requirement) {
    a.executionId == r.executionId && a.action == r.action && a.entity == r.entity
  }

  /** The lookup takes the first matching row in no stated order: any matching row, or None if there is none. */
  ghost predicate LookedUp(approvals: map<nat, Approval>, r: Requirement, pick: Option<nat>) {
    match pick
    case Some(id) => id in approvals && Matches(approvals[id], r)
    case None => forall id :: id in approvals ==> !Matches(approvals[id], r)
  }

  /** Why the row that was found does not authorise the call; None when it does. */
  function RowRefusal(approvals: map<nat, Approval>, pick: Option<nat>, now: int, policy: AuthorityPolicy)
    : Option<ErrorCode>
  {
    if pick.None? || pick.value !in approvals then Some(ErrApprovalRequired)
    else
      var row := approvals[pick.value];
      if row.status != Approved then Some(ErrApprovalNotGranted)
      else if row.consumedAt.Some? then Some(ErrApprovalAlreadyConsumed)
      else if IsStale(row.decidedAt, now, policy) then Some(ErrApprovalNotGranted)
      else None
  }

  /** The call passed the permission check and needs an approval row looked up. */
  predicate NeedsRow(call: Call) {
    var permission := CheckPermission(call.role, call.tool);
    permission.Ok? && permission.value.mutating && call.executionId.Some? && call.entity.Some?
  }

  function RequirementOf(call: Call): Requirement
    requires NeedsRow(call)
  {
    Requirement(call.executionId.value, ActionOf(call, CheckPermission(call.role, call.tool).value), call.entity.value)
  }

  /** Why the call is refused before its handler is entered; None when the handler runs. */
  function Refusal(approvals: map<nat, Approval>, call: Call, pick: Option<nat>): Option<ErrorCode> {
    match CheckPermission(call.role, call.tool)
    case Err(UnknownTool) => Some(ErrInvalidInput)
    case Err(PermissionDenied) => Some(ErrPermissionDenied)
    case Ok(policy) =>
      if !policy.mutating then None
      else if call.executionId.None? then Some(ErrApprovalRequired)
      else if call.entity.None? then Some(ErrInvalidInput)
      else RowRefusal(approvals, pick, call.now, DEFAULT_AUTHORITY)
  }

  /** The records the handler sees: the approval is spent first, where the call spends one. */
  function Spend(records: Records, call: Call, pick: Option<nat>): Records {
    if NeedsRow(call) && call.consume && pick.Some? && pick.value in records.approvals
    then
      var row := records.approvals[pick.value];
      records.(approvals := records.approvals[pick.value := row.(consumedAt := Some(call.now))])
    else records
  }

  // ---- The specification ------------------------------------------------------------------------------------

  datatype ToolCallRow = ToolCallRow(
    executionId: Option<nat>, tool: Tool, succeeded: bool, errorCode: Option<ErrorCode>, approvalId: Option<nat>)

  datatype Event =
    | ToolSelected(executionId: Option<nat>, tool: Tool)
    | ToolCalled(executionId: Option<nat>, tool: Tool)
    | ToolCompleted(executionId: Option<nat>, tool: Tool, succeeded: bool, errorCode: Option<ErrorCode>)
    | ApprovalRequested(execution: nat, row: nat)
    | ApprovalReceived(execution: nat, row: nat, approved: bool)

  datatype World = World(records: Records, portal: Portal, toolCalls: seq<ToolCallRow>, events: seq<Event>)

  datatype Outcome = Outcome(world: World, result: ToolResult, called: bool)

  function CodeOf(result: ToolResult): Option<ErrorCode> {
    if result.Ok? then None else Some(result.error)
  }

  /** The events of one attempt, in the order they are inserted. */
  function AttemptEvents(call: Call, called: bool, result: ToolResult): seq<Event> {
    [ToolSelected(call.executionId, call.tool)]
    + (if called then [ToolCalled(call.executionId, call.tool)] else [])
    + [ToolCompleted(call.executionId, call.tool, result.Ok?, CodeOf(result))]
  }

  /** The attempt on the record, whatever became of it. */
  function RecordAttempt(w: World, call: Call, called: bool, result: ToolResult, approvalId: Option<nat>): World {
    w.(toolCalls := w.toolCalls + [ToolCallRow(call.executionId, call.tool, result.Ok?, CodeOf(result), approvalId)],
       events := w.events + AttemptEvents(call, called, result))
  }

  /** The whole call as one step. */
  function Execute(w: World, call: Call, pick: Option<nat>): Outcome {
    match Refusal(w.records.approvals, call, pick)
    case Some(code) => Outcome(RecordAttempt(w, call, false, Err(code), None), Err(code), false)
    case None =>
      var run := Effect(call.work, Spend(w.records, call, pick), w.portal);
      var w' := w.(records := if run.result.Ok? then run.records else w.records, portal := run.portal);
      Outcome(RecordAttempt(w', call, true, run.result, if run.result.Ok? && NeedsRow(call) then pick else None),
              run.result, true)
  }

  // ---- What the specification promises ----------------------------------------------------------------------

  /** On any failure, whatever the handler did, the records and every approval row are as before. */
  lemma FailureChangesNothing(w: World, call: Call, pick: Option<nat>)
    ensures var o := Execute(w, call, pick);
            o.result.Err? ==>
              && o.world.records == w.records
              && o.world.toolCalls[|w.toolCalls|..]
                 == [ToolCallRow(call.executionId, call.tool, false, Some(o.result.error), None)]
  {
  }

  /** The row an approved mutation rested on: scoped to it, APPROVED, unspent and fresh when it was used. */
  ghost predicate Authorises(row: Approval, call: Call)
    requires NeedsRow(call)
  {
    && Matches(row, RequirementOf(call))
    && row.status == Approved && row.consumedAt.None?
    && row.decidedAt.Some? && call.now - row.decidedAt.value <= DEFAULT_AUTHORITY.validityHours * MICROS_PER_HOUR
  }

  /** A mutating tool gets as far as its handler exactly when the caller may call it and the row authorises it. */
  lemma HandlerEnteredIff(w: World, call: Call, pick: Option<nat>)
    requires NeedsRow(call) ==> LookedUp(w.records.approvals, RequirementOf(call), pick)
    ensures var o := Execute(w, call, pick);
            var permission := CheckPermission(call.role, call.tool);
            && (o.result.Ok? ==> o.called)
            && (o.called <==>
                permission.Ok? && (permission.value.mutating ==>
                  NeedsRow(call) && pick.Some? && Authorises(w.records.approvals[pick.value], call)))
  {
  }

  /** One tool_calls row, one selected and one completed event, and a called event exactly when the handler ran. */
  lemma EveryAttemptIsRecorded(w: World, call: Call, pick: Option<nat>)
    ensures var o := Execute(w, call, pick);
            && |o.world.toolCalls| == |w.toolCalls| + 1 && o.world.toolCalls[..|w.toolCalls|] == w.toolCalls
            && o.world.toolCalls[|w.toolCalls|].executionId == call.executionId
            && o.world.toolCalls[|w.toolCalls|].tool == call.tool
            && o.world.toolCalls[|w.toolCalls|].succeeded == o.result.Ok?
            && (o.result.Err? ==> o.world.toolCalls[|w.toolCalls|].errorCode == Some(o.result.error))
            && (o.result.Ok? ==> o.world.toolCalls[|w.toolCalls|].errorCode == None)
            && o.world.toolCalls[|w.toolCalls|].approvalId
               == (if o.result.Ok? && Mutates(call.tool) then pick else None)
            && |o.world.events| >= |w.events| && o.world.events[..|w.events|] == w.events
            && o.world.events[|w.events|..] ==
               if o.called
               then [ToolSelected(call.executionId, call.tool), ToolCalled(call.executionId, call.tool),
                     ToolCompleted(call.executionId, call.tool, o.result.Ok?, CodeOf(o.result))]
               else [ToolSelected(call.executionId, call.tool),
                     ToolCompleted(call.executionId, call.tool, o.result.Ok?, CodeOf(o.result))]
  {
  }

  /** No handler touches an approval row: a call changes at most the one row it spends, and that on success. */
  lemma CallTouchesOnlyItsRow(w: World, call: Call, pick: Option<nat>)
    requires call.work.Custom? ==>
               forall records, portal :: call.work.run(records, portal).records.approvals == records.approvals
    ensures var o := Execute(w, call, pick);
            if o.result.Ok? && NeedsRow(call) && call.consume
            then pick.Some? && pick.value in w.records.approvals
                 && o.world.records.approvals
                    == w.records.approvals[pick.value := w.records.approvals[pick.value].(consumedAt := Some(call.now))]
            else o.world.records.approvals == w.records.approvals
  {
  }

  // ---- Which approval a mutation needs ----------------------------------------------------------------------

  /** The action a mutating call must have approved: the one it names, or else its tool's own. */
  function NeededAction(call: Call): string
    requires Mutates(call.tool)
  {
    if call.action.Some? && call.action.value != "" then call.action.value
    else
      match call.tool
      case UpdateCrm => "update_crm"
      case CreateRefund => "issue_refund"
      case SendNotification => "send_notification"
      case _ => "subscription_upgrade"
  }

  /** The row is about this call: its workflow, its entity, and the action it needs. */
  predicate Concerns(row: Approval, call: Call) {
    && Mutates(call.tool) && call.executionId == Some(row.executionId) && call.entity == Some(row.entity)
    && row.action == NeededAction(call)
  }

  /** Any row that is about the call, or None if there is none. */
  ghost predicate FoundFor(approvals: map<nat, Approval>, call: Call, pick: Option<nat>) {
    match pick
    case Some(id) => id in approvals && Concerns(approvals[id], call)
    case None => forall id :: id in approvals ==> !Concerns(approvals[id], call)
  }

  /** What is looked up for a call is a row about it: of its workflow, its entity and the action it needs. */
  lemma LooksForItsOwnRow(approvals: map<nat, Approval>, call: Call, pick: Option<nat>)
    requires NeedsRow(call)
    ensures Mutates(call.tool)
    ensures forall row :: Matches(row, RequirementOf(call)) <==> Concerns(row, call)
    ensures LookedUp(approvals, RequirementOf(call), pick) <==> FoundFor(approvals, call, pick)
  {
    ToolsOfRole(call.role, call.tool);
    ActionIsNeeded(call);
    hide CheckPermission, ActionOf, NeededAction;
    assert RequirementOf(call) == Requirement(call.executionId.value, NeededAction(call), call.entity.value);
  }

  lemma ActionIsNeeded(call: Call)
    requires CheckPermission(call.role, call.tool).Ok? && Mutates(call.tool)
    ensures ActionOf(call, CheckPermission(call.role, call.tool).value) == NeededAction(call)
  {
  }

  /**
   Why a call is refused before its handler is entered, and when it is not: an undeclared tool, a role that may not
   call it, a mutation without a workflow or an entity, and then the row found: none, undecided or refused, spent,
   or decided too long ago.
   */
  lemma RefusedBecause(w: World, call: Call, pick: Option<nat>)
    requires FoundFor(w.records.approvals, call, pick)
    ensures var o := Execute(w, call, pick);
            var may := CheckPermission(call.role, call.tool).Ok?;
            if call.tool.Undeclared? then !o.called && o.result == Err(ErrInvalidInput)
            else if !may then !o.called && o.result == Err(ErrPermissionDenied)
            else if !Mutates(call.tool) then o.called
            else if call.executionId.None? then !o.called && o.result == Err(ErrApprovalRequired)
            else if call.entity.None? then !o.called && o.result == Err(ErrInvalidInput)
            else if pick.None? then !o.called && o.result == Err(ErrApprovalRequired)
            else
              var row := w.records.approvals[pick.value];
              if row.status != Approved then !o.called && o.result == Err(ErrApprovalNotGranted)
              else if row.consumedAt.Some? then !o.called && o.result == Err(ErrApprovalAlreadyConsumed)
              else if row.decidedAt.None? || call.now - row.decidedAt.value > 24 * 3_600_000_000
                then !o.called && o.result == Err(ErrApprovalNotGranted)
              else o.called
  {
    hide Effect, RecordAttempt, FoundFor, ActionOf, NeededAction;
    ToolsOfRole(call.role, call.tool);
    FoundIsPresent(w.records.approvals, call, pick);
  }

  lemma FoundIsPresent(approvals: map<nat, Approval>, call: Call, pick: Option<nat>)
    requires FoundFor(approvals, call, pick)
    ensures pick.Some? ==> pick.value in approvals && Concerns(approvals[pick.value], call)
  {
  }

  /**
   A mutating handler is only ever entered on a row of the call's own workflow and entity whose action is the one the
   call names, or else its tool's own: an approval of one act never authorises another.
   */
  lemma EnteredUnderItsOwnAction(w: World, call: Call, pick: Option<nat>)
    requires NeedsRow(call) ==> LookedUp(w.records.approvals, RequirementOf(call), pick)
    requires Execute(w, call, pick).called && Mutates(call.tool)
    ensures pick.Some? && pick.value in w.records.approvals && Concerns(w.records.approvals[pick.value], call)
    ensures var row := w.records.approvals[pick.value];
            && row.status == Approved && row.consumedAt.None?
            && row.decidedAt.Some? && call.now - row.decidedAt.value <= 24 * 3_600_000_000
  {
    hide Effect, RecordAttempt, LookedUp, Execute, NeededAction;
    ToolsOfRole(call.role, call.tool);
    HandlerEnteredIff(w, call, pick);
    LooksForItsOwnRow(w.records.approvals, call, pick);
  }

  // ---- What the handlers do -----------------------------------------------------------------------------------

  /** Nothing in the records but the approval the call spent differs. */
  ghost predicate SystemsKept(w: World, o: Outcome) {
    o.world.records.systems == w.records.systems
  }

  /**
   A plan change that was let through lands exactly when the subscription is there and the plan is on sale, and then
   puts that one subscription on the plan and says what it was on.
   */
  lemma PlanChangeDoes(w: World, call: Call, pick: Option<nat>)
    requires call.work.ChangePlan? && Execute(w, call, pick).called
    ensures var o, sys := Execute(w, call, pick), w.records.systems;
            var id, plan := call.work.subscription, call.work.planCode;
            && o.world.portal == w.portal
            && (o.result.Ok? <==> id in sys.subscriptions && plan in sys.plans && sys.plans[plan])
            && (o.result.Err? ==> SystemsKept(w, o))
            && (o.result.Err? ==> o.result.error == if id in sys.subscriptions && plan in sys.plans
                                                    then ErrPreconditionFailed else ErrNotFound)
            && (o.result.Ok? ==>
                  var sys' := o.world.records.systems;
                  && o.result.value == PlanChanged(sys.subscriptions[id].planCode, plan)
                  && sys'.accounts == sys.accounts && sys'.plans == sys.plans
                  && sys'.subscriptions.Keys == sys.subscriptions.Keys
                  && forall s :: s in sys.subscriptions ==>
                       sys'.subscriptions[s] == if s == id then sys.subscriptions[s].(planCode := plan)
                                                else sys.subscriptions[s])
  {
    hide Refusal;
  }

  /** A CRM update that was let through lands exactly when the account is there, and writes its plan and the instant. */
  lemma CrmSyncDoes(w: World, call: Call, pick: Option<nat>)
    requires call.work.SyncCrm? && Execute(w, call, pick).called
    ensures var o, sys := Execute(w, call, pick), w.records.systems;
            var account, plan := call.work.account, call.work.planCode;
            && o.world.portal == w.portal
            && (if account in sys.accounts then
                  && o.result == Ok(CrmSynced(plan))
                  && o.world.records.systems.subscriptions == sys.subscriptions
                  && o.world.records.systems.plans == sys.plans
                  && o.world.records.systems.accounts.Keys == sys.accounts.Keys
                  && o.world.records.systems.accounts[account] == Account(Some(plan), Some(call.work.at))
                  && forall a :: a in sys.accounts && a != account ==>
                       o.world.records.systems.accounts[a] == sys.accounts[a]
                else o.result == Err(ErrNotFound) && SystemsKept(w, o))
  {
    hide Refusal;
  }

  /**
   A provisioning call that was let through reports what the portal confirmed, or its error: transient exactly when
   the portal timed out, could not be logged into or had no browser. Nobody else's tier differs, and the records
   never do.
   */
  lemma ProvisioningDoes(w: World, call: Call, pick: Option<nat>)
    requires call.work.Provision? && Execute(w, call, pick).called
    ensures var o, account := Execute(w, call, pick), call.work.account;
            && SystemsKept(w, o)
            && (forall a :: a != account ==>
                  (a in o.world.portal <==> a in w.portal) && (a in w.portal ==> o.world.portal[a] == w.portal[a]))
            && match call.work.reply
               case Confirms(tier) =>
                 o.result == Ok(Provisioned(call.work.tier, tier)) && account in o.world.portal
                 && o.world.portal[account] == tier
               case Fails(error, left) =>
                 && o.result.Err?
                 && (Retryable(o.result.error) <==> error in {Timeout, LoginFailed, BrowserUnavailable})
                 && (o.result.error == ErrUpstreamTimeout <==> error == Timeout)
                 && (o.result.error == ErrNotFound <==> error == PortalAccountNotFound)
                 && (o.result.error == ErrPreconditionFailed <==> error in {TierRejected, ConfirmationMissing})
                 && (o.result.error == ErrInternal <==> error == Unexpected)
                 && o.world.portal == match left case None => w.portal case Some(tier) => w.portal[account := tier]
  {
    hide Refusal;
  }

  // ---- The execute node: three mutations under one approval -----------------------------------------------

  const UPGRADE := "subscription_upgrade"

  function AccountEntity(account: nat): Entity {
    Entity("account", account)
  }

  /** The row the approval gate writes. */
  function PendingRow(execution: nat, account: nat, amount: Option<int>, now: int): Approval {
    Approval(execution, UPGRADE, AccountEntity(account), Pending, amount, now, None, None, None)
  }

  function BillingCall(execution: nat, account: nat, subscription: nat, target: string, now: int): Call {
    Call(Execution, UpdateSubscription, Some(execution), Some(AccountEntity(account)), Some(UPGRADE), false,
         ChangePlan(subscription, target), now)
  }

  function CrmCall(execution: nat, account: nat, target: string, now: int): Call {
    Call(Execution, UpdateCrm, Some(execution), Some(AccountEntity(account)), Some(UPGRADE), false,
         SyncCrm(account, target, now), now)
  }

  /** The last of the three: this one spends the approval. */
  function PortalCall(execution: nat, account: nat, target: string, reply: PortalReply, now: int): Call {
    Call(Execution, UpdateEntitlement, Some(execution), Some(AccountEntity(account)), Some(UPGRADE), true,
         Provision(account, target, reply), now)
  }

  /** Each of the three looks for the same row: this workflow's, for the upgrade, about this account. */
  lemma UpgradeCallsShareARow(call: Call, execution: nat, account: nat)
    requires call.executionId == Some(execution) && call.entity == Some(AccountEntity(account))
    requires call.action == Some(UPGRADE)
    requires call.role == Execution && call.tool in {UpdateSubscription, UpdateCrm, UpdateEntitlement}
    ensures NeedsRow(call) && RequirementOf(call) == Requirement(execution, UPGRADE, AccountEntity(account))
    ensures RequirementOf(call).action == "subscription_upgrade" && RequirementOf(call).entity.kind == "account"
  {
  }

  /** The world after the first `k` calls, each with the row its lookup found. */
  function AfterCalls(w: World, calls: seq<(Call, Option<nat>)>, k: nat): World
    requires k <= |calls|
  {
    if k == 0 then w else Execute(AfterCalls(w, calls, k - 1), calls[k - 1].0, calls[k - 1].1).world
  }

  /** The subscriptions an account has. */
  function SubscriptionsOf(sys: Systems, account: nat): set<nat> {
    set id | id in sys.subscriptions && sys.subscriptions[id].account == account
  }

  /** The results of these calls, each made in the world the previous one left, with a row it could find there. */
  ghost predicate CallsMade(w: World, r: Requirement, calls: seq<(Call, Option<nat>)>, results: seq<ToolResult>) {
    && |results| == |calls|
    && forall k :: 0 <= k < |calls| ==>
         var before := AfterCalls(w, calls, k);
         && LookedUp(before.records.approvals, r, calls[k].1)
         && results[k] == Execute(before, calls[k].0, calls[k].1).result
  }

  lemma {:induction false} SameCalls(w: World, calls: seq<(Call, Option<nat>)>, more: seq<(Call, Option<nat>)>, k: nat)
    requires k <= |calls|
    ensures AfterCalls(w, calls + more, k) == AfterCalls(w, calls, k)
  {
    hide Execute;
    if k > 0 { SameCalls(w, calls, more, k - 1); }
  }

  lemma NextCall(w: World, r: Requirement, calls: seq<(Call, Option<nat>)>, results: seq<ToolResult>,
                 call: Call, pick: Option<nat>)
    requires CallsMade(w, r, calls, results)
    requires LookedUp(AfterCalls(w, calls, |calls|).records.approvals, r, pick)
    ensures var o := Execute(AfterCalls(w, calls, |calls|), call, pick);
            && CallsMade(w, r, calls + [(call, pick)], results + [o.result])
            && AfterCalls(w, calls + [(call, pick)], |calls| + 1) == o.world
  {
    hide Execute, LookedUp;
    var calls' := calls + [(call, pick)];
    forall k | 0 <= k <= |calls| ensures AfterCalls(w, calls', k) == AfterCalls(w, calls, k) {
      SameCalls(w, calls, [(call, pick)], k);
    }
  }

  /**
   The calls of one visit of the execute node: billing, the CRM and, where one is configured, the portal, in
   this order, at clocks that do not run back, each with a row its lookup could have found in the world the
   previous call left.
   */
  ghost predicate UpgradeMade(w: World, execution: nat, account: nat, target: string, now: int,
                              calls: seq<(Call, Option<nat>)>)
  {
    && 2 <= |calls| <= 3
    && (exists id :: SubscriptionsOf(w.records.systems, account) == {id}
                     && calls[0].0 == BillingCall(execution, account, id, target, calls[0].0.now))
    && calls[1].0 == CrmCall(execution, account, target, calls[1].0.now)
    && (|calls| == 3 ==> exists reply :: calls[2].0 == PortalCall(execution, account, target, reply, calls[2].0.now))
    && now <= calls[0].0.now && (forall k :: 0 < k < |calls| ==> calls[k - 1].0.now <= calls[k].0.now)
    && (forall k :: 0 <= k < |calls| ==>
          LookedUp(AfterCalls(w, calls, k).records.approvals,
                   Requirement(execution, UPGRADE, AccountEntity(account)), calls[k].1))
  }

  /**
   If the call that spends the approval fails, no row is spent and none has changed, while what the billing
   and CRM calls did before it stands; if it succeeds, exactly the row it found is spent.
   */
  lemma ApprovalSpentOnlyAtTheEnd(w: World, execution: nat, account: nat, subscription: nat, target: string,
                                  reply: PortalReply, t1: int, t2: int, t3: int,
                                  p1: Option<nat>, p2: Option<nat>, p3: Option<nat>)
    requires LookedUp(w.records.approvals, Requirement(execution, UPGRADE, AccountEntity(account)), p3)
    ensures var w1 := Execute(w, BillingCall(execution, account, subscription, target, t1), p1).world;
            var w2 := Execute(w1, CrmCall(execution, account, target, t2), p2).world;
            var last := Execute(w2, PortalCall(execution, account, target, reply, t3), p3);
            && w2.records.approvals == w.records.approvals
            && last.world.records.systems == w2.records.systems
            && (last.result.Err? ==> last.world.records.approvals == w.records.approvals)
            && (last.result.Ok? ==>
                  && p3.Some? && p3.value in w.records.approvals
                  && last.world.records.approvals
                     == w.records.approvals[p3.value := w.records.approvals[p3.value].(consumedAt := Some(t3))])
  {
  }

  /** With no row for this workflow and account, none of the three calls changes anything. */
  lemma WithoutAnApprovalNothingChanges(w: World, execution: nat, account: nat, call: Call, pick: Option<nat>)
    requires call.executionId == Some(execution) && call.entity == Some(AccountEntity(account))
    requires call.action == Some(UPGRADE)
    requires call.role == Execution && call.tool in {UpdateSubscription, UpdateCrm, UpdateEntitlement}
    requires forall id :: id in w.records.approvals ==>
               !Matches(w.records.approvals[id], Requirement(execution, UPGRADE, AccountEntity(account)))
    requires LookedUp(w.records.approvals, Requirement(execution, UPGRADE, AccountEntity(account)), pick)
    ensures var o := Execute(w, call, pick);
            && o.result == Err(ErrApprovalRequired) && !o.called
            && o.world.records == w.records && o.world.portal == w.portal
  {
  }
}
