/**
 Everything at once: any number of workflow runs, human decisions, resumed gates, direct tool calls, clock
 ticks and changes made by other systems, interleaved in any order. The log is a ghost record of what humans
 decided and what mutating handlers were entered.
 */
module Protocol {
  import opened Common
  import opened Approvals
  import opened Tools
  import Assessment
  import Budgets
  import Graph
  import Nodes
  import Permissions
  import Routing
  import State
  import Thresholds

  datatype Entry =
    | HumanDecision(row: nat, user: nat, actor: User, amount: Option<int>, approved: bool, at: int)
    | Mutation(call: Call, row: nat, landed: bool)
  {
    /** A mutation that landed and spent its approval. */
    predicate Spends() {
      Mutation? && landed && call.consume
    }
  }

  /** What a validate visit has read so far: billing, then the CRM, then the portal, each at a moment of its own. */
  datatype Reading =
    | BillingRead(billing: Option<(string, string)>)
    | CrmRead(billing: Option<(string, string)>, crm: Option<string>)
    | AllRead(billing: Option<(string, string)>, crm: Option<string>, tier: Option<string>)

  /** `made` holds what came of the calls a run has made since it came to execute. */
  datatype Sys = Sys(
    policy: Budgets.BudgetPolicy, thresholds: Thresholds.ApprovalPolicy, world: World, users: map<nat, User>,
    runs: map<nat, seq<Nodes.Step>>, reading: map<nat, Reading>, made: map<nat, seq<ToolResult>>, now: int,
    log: seq<Entry>)
  {
    ghost function Approvals(): map<nat, Approval> {
      world.records.approvals
    }
  }

  datatype Step =
    | Begin(execution: nat)
    | Visit(execution: nat, input: Nodes.Input)
    | ReadBilling(execution: nat, billing: Option<(string, string)>)
    | ReadCrm(execution: nat)
    | ReadTier(execution: nat, tier: Option<string>)
    | OpenGate(execution: nat, row: nat)
    | ResumeGate(execution: nat, row: nat)
    | WorkflowCall(execution: nat, call: Call, pick: Option<nat>)
    | DirectCall(call: Call, pick: Option<nat>)
    | HumanDecide(row: nat, user: nat, approved: bool)
    | Tick(later: int)
    | ChangeUsers(users: map<nat, User>)
    | Outside(systems: Systems, portal: Portal)

  // ---- What each step needs ----------------------------------------------------------------------------

  ghost function StateOf(s: Sys, execution: nat): State.State
    requires execution in s.runs
  {
    Nodes.StateAt(s.runs[execution], |s.runs[execution]|)
  }

  /** The node a run stands at, if it has not ended. */
  ghost function At(s: Sys, execution: nat): Option<Routing.Node>
    requires execution in s.runs
  {
    Nodes.Standing(s.policy, s.runs[execution], |s.runs[execution]|)
  }

  ghost predicate StandsAt(s: Sys, execution: nat, n: Routing.Node) {
    execution in s.runs && At(s, execution) == Some(n)
  }

  /** Billing can answer this about the account's active subscription; None is a read that failed. */
  ghost predicate BillingAnswers(w: World, account: nat, answer: Option<(string, string)>) {
    var subscriptions := w.records.systems.subscriptions;
    answer.Some? ==>
      exists id :: id in subscriptions && subscriptions[id].account == account
                   && subscriptions[id].status == "active" && answer.value == (subscriptions[id].planCode, "active")
  }

  function CrmAnswer(w: World, account: nat): Option<string> {
    if account in w.records.systems.accounts then w.records.systems.accounts[account].currentPlanCode else None
  }

  /** The portal can answer this; None is a portal that could not be read. */
  predicate PortalAnswers(w: World, account: nat, answer: Option<string>) {
    answer.Some? ==> account in w.portal && w.portal[account] == answer.value
  }

  /** The run stands at this node with an account and a target to act on. */
  ghost predicate Acts(s: Sys, execution: nat, n: Routing.Node) {
    StandsAt(s, execution, n) && StateOf(s, execution).HasSubject()
  }

  ghost predicate Validates(s: Sys, execution: nat) {
    Acts(s, execution, Routing.Validate)
  }

  ghost function AccountOf(s: Sys, execution: nat): nat
    requires Validates(s, execution)
  {
    StateOf(s, execution).accountId.value
  }

  /** The visit compares what it read before, in three reads. */
  ghost predicate HasRead(s: Sys, execution: nat, input: Nodes.Input)
    requires input.SystemsRead?
  {
    execution in s.reading && s.reading[execution] == AllRead(input.billing, input.crmPlan, input.tier)
  }

  /** The account has this subscription, and it is active. */
  predicate ActiveSubscription(systems: Systems, account: nat, id: nat) {
    id in systems.subscriptions && systems.subscriptions[id].account == account
    && systems.subscriptions[id].status == "active"
  }

  /**
   What the assessment gathers is what the systems hold: the account, the target plan and whether it is on sale,
   and an active subscription with the plan it is on. Standing, terms and prices may be anything.
   */
  ghost predicate Describes(systems: Systems, account: nat, target: string, r: Assessment.Records) {
    && (r.standing.Some? <==> account in systems.accounts)
    && (r.target.Some? <==> target in systems.plans)
    && (r.target.Some? ==> r.target.value.code == target && r.target.value.isActive == systems.plans[target])
    && (r.subscription.None? ==> forall id :: !ActiveSubscription(systems, account, id))
    && (r.subscription.Some? ==>
          && r.subscription.value.status == "active"
          && exists id :: ActiveSubscription(systems, account, id)
                          && systems.subscriptions[id].planCode == r.subscription.value.plan.code)
    && (r.target.Some? && r.subscription.Some? && r.subscription.value.plan.code == target ==>
          r.subscription.value.plan == r.target.value)
  }

  /** The decision rests on the assessment of the records as they are now. */
  ghost predicate Assesses(s: Sys, execution: nat, input: Nodes.Input)
    requires execution in s.runs && StateOf(s, execution).HasSubject() && input.Decided?
  {
    var state := StateOf(s, execution);
    exists r ::
      && Describes(s.world.records.systems, state.accountId.value, state.targetPlan.value, r)
      && input.assessment == Assessment.AssessUpgrade(r, s.now, s.thresholds)
  }

  ghost function MadeBy(s: Sys, execution: nat): seq<ToolResult> {
    if execution in s.made then s.made[execution] else []
  }

  /** The visit learned what came of the calls it made, or found no subscription and made none. */
  ghost predicate HasCalled(s: Sys, execution: nat, input: Nodes.Input)
    requires execution in s.runs && StateOf(s, execution).HasSubject()
  {
    if input.Executed? then MadeBy(s, execution) == input.results
    else MadeBy(s, execution) == []
         && SubscriptionsOf(s.world.records.systems, StateOf(s, execution).accountId.value) == {}
  }

  /** The next of the three calls of the execute node, for the run's own account and target. */
  ghost predicate IsUpgradeCall(s: Sys, execution: nat, call: Call)
    requires execution in s.runs
  {
    var state := StateOf(s, execution);
    state.HasSubject() &&
    var account, target := state.accountId.value, state.targetPlan.value;
    match call.work
    case ChangePlan(id, _) =>
      MadeBy(s, execution) == [] && SubscriptionsOf(s.world.records.systems, account) == {id}
      && call == BillingCall(execution, account, id, target, call.now)
    case SyncCrm(_, _, _) => |MadeBy(s, execution)| == 1 && call == CrmCall(execution, account, target, call.now)
    case Provision(_, _, reply) =>
      |MadeBy(s, execution)| == 2 && call == PortalCall(execution, account, target, reply, call.now)
    case Custom(_) => false
  }

  /** The handlers that ship: each tool with its own, and none but the runtime touches an approval row. */
  ghost predicate Shipped(call: Call) {
    match call.work
    case ChangePlan(_, _) => call.tool == Permissions.UpdateSubscription
    case SyncCrm(_, _, _) => call.tool == Permissions.UpdateCrm
    case Provision(_, _, _) => call.tool == Permissions.UpdateEntitlement
    case Custom(run) =>
      forall records, portal ::
        && run(records, portal).records.approvals == records.approvals
        && (Permissions.GetPolicy(call.tool).Some? && !Permissions.GetPolicy(call.tool).value.mutating ==>
              run(records, portal).records == records && run(records, portal).portal == portal)
  }

  ghost predicate Callable(s: Sys, call: Call, pick: Option<nat>) {
    && Shipped(call)
    && call.now == s.now
    && (NeedsRow(call) ==> LookedUp(s.Approvals(), RequirementOf(call), pick))
  }

  ghost predicate Enabled(s: Sys, step: Step) {
    match step
    case Begin(execution) => execution !in s.runs
    case Visit(execution, input) =>
      && execution in s.runs && At(s, execution).Some? && At(s, execution).value != Routing.ApprovalGate
      && Nodes.Fits(At(s, execution).value, input)
      && (Acts(s, execution, Routing.Decide) ==> Assesses(s, execution, input))
      && (Acts(s, execution, Routing.Execute) ==> HasCalled(s, execution, input))
      && (Validates(s, execution) ==> HasRead(s, execution, input))
    case ReadBilling(execution, billing) =>
      && Validates(s, execution) && execution !in s.reading
      && BillingAnswers(s.world, AccountOf(s, execution), billing)
    case ReadCrm(execution) => Validates(s, execution) && execution in s.reading && s.reading[execution].BillingRead?
    case ReadTier(execution, tier) =>
      && Validates(s, execution) && execution in s.reading && s.reading[execution].CrmRead?
      && PortalAnswers(s.world, AccountOf(s, execution), tier)
    case OpenGate(execution, row) =>
      StandsAt(s, execution, Routing.ApprovalGate) && StateOf(s, execution).accountId.Some? && row !in s.Approvals()
    case ResumeGate(execution, row) =>
      && StandsAt(s, execution, Routing.ApprovalGate)
      && row in s.Approvals() && s.Approvals()[row].executionId == execution
    case WorkflowCall(execution, call, pick) =>
      StandsAt(s, execution, Routing.Execute) && IsUpgradeCall(s, execution, call) && Callable(s, call, pick)
    case DirectCall(call, pick) => Callable(s, call, pick)
    case HumanDecide(row, user, _) => true
    case Tick(later) => s.now <= later
    case ChangeUsers(_) => true
    case Outside(_, _) => true
  }

  // ---- What each step does -------------------------------------------------------------------------------

  ghost function Visited(s: Sys, execution: nat, node: Routing.Node, input: Nodes.Input): Sys
    requires execution in s.runs
  {
    s.(runs := s.runs[execution := s.runs[execution] + [Nodes.Step(node, input)]],
       reading := s.reading - {execution}, made := s.made - {execution})
  }

  ghost function WithApprovals(s: Sys, approvals: map<nat, Approval>): Sys {
    s.(world := s.world.(records := s.world.records.(approvals := approvals)))
  }

  ghost function Called(s: Sys, call: Call, pick: Option<nat>): Sys {
    var o := Execute(s.world, call, pick);
    s.(world := o.world,
       log := if o.called && NeedsRow(call) && pick.Some?
              then s.log + [Mutation(call, pick.value, o.result.Ok?)] else s.log)
  }

  /** A call of the execute node: the run keeps what came of it. */
  ghost function CalledBy(s: Sys, execution: nat, call: Call, pick: Option<nat>): Sys {
    Called(s, call, pick)
      .(made := s.made[execution := MadeBy(s, execution) + [Execute(s.world, call, pick).result]])
  }

  ghost function Decided(s: Sys, row: nat, user: nat, approved: bool): Sys {
    if ReviewDecision(s.Approvals(), s.users, row, user, DEFAULT_AUTHORITY) == Recorded then
      var a := s.Approvals()[row];
      WithApprovals(s, s.Approvals()[row := DecidedRow(a, user, approved, s.now)])
        .(log := s.log + [HumanDecision(row, user, s.users[user], a.amount, approved, s.now)])
    else s
  }

  ghost function Apply(s: Sys, step: Step): Sys
    requires Enabled(s, step)
  {
    match step
    case Begin(execution) => s.(runs := s.runs[execution := []])
    case Visit(execution, input) => Visited(s, execution, At(s, execution).value, input)
    case ReadBilling(execution, billing) => s.(reading := s.reading[execution := BillingRead(billing)])
    case ReadCrm(execution) =>
      var crm := CrmAnswer(s.world, AccountOf(s, execution));
      s.(reading := s.reading[execution := CrmRead(s.reading[execution].billing, crm)])
    case ReadTier(execution, tier) =>
      var reading := s.reading[execution];
      s.(reading := s.reading[execution := AllRead(reading.billing, reading.crm, tier)])
    case OpenGate(execution, row) =>
      var state := StateOf(s, execution);
      var pending := PendingRow(execution, state.accountId.value, state.metadata.prorationAmount, s.now);
      WithApprovals(s, s.Approvals()[row := pending])
    case ResumeGate(execution, row) =>
      Visited(s, execution, Routing.ApprovalGate, Nodes.GateRead(row, Some(s.Approvals()[row].status)))
    case WorkflowCall(execution, call, pick) => CalledBy(s, execution, call, pick)
    case DirectCall(call, pick) => Called(s, call, pick)
    case HumanDecide(row, user, approved) => Decided(s, row, user, approved)
    case Tick(later) => s.(now := later)
    case ChangeUsers(users) => s.(users := users)
    case Outside(systems, portal) =>
      s.(world := s.world.(records := s.world.records.(systems := systems), portal := portal))
  }

  /** Nothing has happened yet: no approval rows, no runs. The records and the users are whatever they are. */
  ghost predicate Init(s: Sys) {
    s.Approvals() == map[] && s.runs == map[] && s.reading == map[] && s.made == map[] && s.log == []
  }

  /** The steps are a trace from `s`, and this is the system after the first `k` of them. */
  ghost predicate Trace(s: Sys, steps: seq<Step>) {
    Init(s) && forall k :: 0 <= k < |steps| ==> EnabledAt(s, steps, k)
  }

  ghost predicate EnabledAt(s: Sys, steps: seq<Step>, k: nat)
    requires k < |steps|
  {
    Enabled(SysAt(s, steps, k), steps[k])
  }

  ghost function SysAt(s: Sys, steps: seq<Step>, k: nat): Sys
    requires k <= |steps|
  {
    if k == 0 then s
    else if Enabled(SysAt(s, steps, k - 1), steps[k - 1]) then Apply(SysAt(s, steps, k - 1), steps[k - 1])
    else SysAt(s, steps, k - 1)
  }

  // ---- Invariants on rows and log --------------------------------------------------------------------------

  /** The entry is the human decision recorded on this row. */
  ghost predicate Decides(e: Entry, row: nat, a: Approval) {
    && e.HumanDecision? && e.row == row && e.amount == a.amount
    && a.decidedAt == Some(e.at) && a.decidedBy == Some(e.user)
    && e.approved == (a.status == Approved)
    && HasAuthority(e.actor, e.amount, DEFAULT_AUTHORITY)
  }

  /** The entry is the mutation that spent this row, at this instant. */
  ghost predicate SpentAt(e: Entry, row: nat, at: int) {
    e.Spends() && e.row == row && e.call.now == at
  }

  /** A row is pending and untouched, or carries the one decision the log has for it; only an approved one is spent. */
  ghost predicate RowOk(log: seq<Entry>, row: nat, a: Approval) {
    && a.status in {Pending, Approved, Rejected}
    && (a.status == Pending ==> forall i :: 0 <= i < |log| ==> !(log[i].HumanDecision? && log[i].row == row))
    && (a.status != Pending ==> exists i :: 0 <= i < |log| && Decides(log[i], row, a))
    && (a.consumedAt.Some? ==> a.status == Approved)
    && (a.consumedAt.None? ==> forall i :: 0 <= i < |log| && log[i].Spends() ==> log[i].row != row)
    && (a.consumedAt.Some? ==> exists i :: 0 <= i < |log| && SpentAt(log[i], row, a.consumedAt.value))
  }

  ghost predicate RowsOk(approvals: map<nat, Approval>, log: seq<Entry>) {
    forall row :: row in approvals ==> RowOk(log, row, approvals[row])
  }

  /** The decision and the row that let this mutation through. */
  ghost predicate Grants(d: Entry, a: Approval, m: Entry)
    requires m.Mutation?
  {
    && NeedsRow(m.call) && Matches(a, RequirementOf(m.call))
    && d.HumanDecision? && d.row == m.row && d.approved && d.amount == a.amount
    && a.status == Approved && a.decidedBy == Some(d.user)
    && HasAuthority(d.actor, d.amount, DEFAULT_AUTHORITY)
    && d.at <= m.call.now <= d.at + DEFAULT_AUTHORITY.validityHours * MICROS_PER_HOUR
  }

  ghost predicate Justified(approvals: map<nat, Approval>, log: seq<Entry>, m: nat)
    requires m < |log| && log[m].Mutation?
  {
    log[m].row in approvals && exists d :: 0 <= d < m && Grants(log[d], approvals[log[m].row], log[m])
  }

  ghost predicate LogOk(approvals: map<nat, Approval>, log: seq<Entry>, now: int) {
    && (forall i :: 0 <= i < |log| ==> log[i].row in approvals)
    && (forall i :: 0 <= i < |log| && log[i].HumanDecision? ==> log[i].at <= now)
    && (forall i, j :: 0 <= i < j < |log| && log[i].HumanDecision? && log[j].HumanDecision? ==>
          log[i].row != log[j].row)
    && (forall m :: 0 <= m < |log| && log[m].Mutation? ==> Justified(approvals, log, m))
    && (forall i, j :: 0 <= i < j < |log| && log[i].Spends() && log[j].Mutation? ==> log[i].row != log[j].row)
  }

  // ---- Invariants on runs -----------------------------------------------------------------------------------

  /** A gate that opened had read an approved row of its own workflow. */
  ghost predicate GatesOk(approvals: map<nat, Approval>, execution: nat, steps: seq<Nodes.Step>) {
    forall k :: 0 <= k < |steps| && steps[k].input.GateRead? && steps[k].input.recorded == Some(Approved) ==>
      var row := steps[k].input.approvalId;
      row in approvals && approvals[row].executionId == execution && approvals[row].status == Approved
  }

  ghost predicate RunsOk(s: Sys) {
    forall e :: e in s.runs ==> Nodes.ShippedRun(s.policy, s.runs[e]) && GatesOk(s.Approvals(), e, s.runs[e])
  }

  ghost predicate Inv(s: Sys) {
    && RowsOk(s.Approvals(), s.log)
    && LogOk(s.Approvals(), s.log, s.now)
    && RunsOk(s)
  }

  // ---- How a row may change ---------------------------------------------------------------------------------

  /**
   Scope and amount never change; the status leaves PENDING once and never moves again; a row is spent once,
   while APPROVED, and a spent row never changes at all.
   */
  ghost predicate RowEvolves(a: Approval, a': Approval) {
    && a'.executionId == a.executionId && a'.action == a.action && a'.entity == a.entity
    && a'.amount == a.amount && a'.requestedAt == a.requestedAt
    && (a.status != Pending ==> a'.status == a.status && a'.decidedAt == a.decidedAt && a'.decidedBy == a.decidedBy)
    && (a.consumedAt.Some? ==> a' == a)
    && (a.consumedAt.None? && a'.consumedAt.Some? ==> a'.status == Approved)
  }

  ghost predicate RowsEvolve(approvals: map<nat, Approval>, approvals': map<nat, Approval>) {
    forall row :: row in approvals ==> row in approvals' && RowEvolves(approvals[row], approvals'[row])
  }

  lemma RowsEvolveTransitively(a: map<nat, Approval>, b: map<nat, Approval>, c: map<nat, Approval>)
    requires RowsEvolve(a, b) && RowsEvolve(b, c)
    ensures RowsEvolve(a, c)
  {
  }

  // ---- Steps that extend a run ------------------------------------------------------------------------------

  lemma RunStepKeepsInv(s: Sys, execution: nat, input: Nodes.Input)
    requires Inv(s) && execution in s.runs && At(s, execution).Some?
    requires Nodes.Fits(At(s, execution).value, input)
    requires input.GateRead? && input.recorded == Some(Approved) ==>
               input.approvalId in s.Approvals() && s.Approvals()[input.approvalId].executionId == execution
               && s.Approvals()[input.approvalId].status == Approved
    ensures Inv(Visited(s, execution, At(s, execution).value, input))
  {
    hide Nodes.StateAt, Graph.Next, Nodes.Fits, Nodes.ShippedRun, RowsOk, LogOk;
    Nodes.RunGrows(s.policy, s.runs[execution], Nodes.Step(At(s, execution).value, input));
  }

  // ---- Steps that change rows and log -----------------------------------------------------------------------

  lemma EvolvingKeepsRuns(s: Sys, s': Sys)
    requires RunsOk(s) && s'.runs == s.runs && s'.policy == s.policy && RowsEvolve(s.Approvals(), s'.Approvals())
    ensures RunsOk(s')
  {
    hide Nodes.ShippedRun;
  }

  /** The row after a mutation it authorised. */
  ghost function SpentBy(approvals: map<nat, Approval>, m: Entry): map<nat, Approval>
    requires m.Mutation? && m.row in approvals
  {
    if m.Spends() then approvals[m.row := approvals[m.row].(consumedAt := Some(m.call.now))] else approvals
  }

  /** The situation in which a mutating handler is entered. */
  ghost predicate Authorised(approvals: map<nat, Approval>, log: seq<Entry>, now: int, m: Entry) {
    && RowsOk(approvals, log) && LogOk(approvals, log, now)
    && m.Mutation? && m.row in approvals && NeedsRow(m.call) && m.call.now == now
    && Authorises(approvals[m.row], m.call)
  }

  lemma OnlyOneDecisionFits(log: seq<Entry>, row: nat, a: Approval, a': Approval, more: Entry)
    requires RowOk(log, row, a) && more.Mutation?
    requires a'.status == a.status && a'.amount == a.amount && a'.decidedAt == a.decidedAt
    requires a'.decidedBy == a.decidedBy
    requires a'.consumedAt == if more.Spends() && more.row == row then Some(more.call.now) else a.consumedAt
    requires more.row == row ==> a.status == Approved
    ensures RowOk(log + [more], row, a')
  {
    var log' := log + [more];
    if a.status != Pending {
      var i :| 0 <= i < |log| && Decides(log[i], row, a);
      assert log'[i] == log[i] && Decides(log'[i], row, a');
    }
    if a.consumedAt.Some? {
      var i :| 0 <= i < |log| && SpentAt(log[i], row, a.consumedAt.value);
      assert log'[i] == log[i];
    }
    if more.Spends() && more.row == row {
      assert log'[|log|] == more;
    }
  }

  lemma MutationKeepsRows(approvals: map<nat, Approval>, log: seq<Entry>, now: int, m: Entry)
    requires Authorised(approvals, log, now, m)
    ensures RowsOk(SpentBy(approvals, m), log + [m])
    ensures RowsEvolve(approvals, SpentBy(approvals, m))
  {
    hide RowOk;
    var approvals' := SpentBy(approvals, m);
    forall row | row in approvals' ensures RowOk(log + [m], row, approvals'[row]) {
      OnlyOneDecisionFits(log, row, approvals[row], approvals'[row], m);
    }
  }

  /** The newest mutation rests on the one decision its row carries. */
  lemma MutationIsJustified(approvals: map<nat, Approval>, log: seq<Entry>, now: int, m: Entry)
    requires Authorised(approvals, log, now, m)
    ensures Justified(SpentBy(approvals, m), log + [m], |log|)
  {
    var a := approvals[m.row];
    assert RowOk(log, m.row, a);
    var d :| 0 <= d < |log| && Decides(log[d], m.row, a);
    assert (log + [m])[d] == log[d];
    assert Grants(log[d], SpentBy(approvals, m)[m.row], m);
  }

  lemma StaysJustified(approvals: map<nat, Approval>, approvals': map<nat, Approval>, log: seq<Entry>, more: Entry,
                       m: nat)
    requires m < |log| && log[m].Mutation? && Justified(approvals, log, m) && RowsEvolve(approvals, approvals')
    ensures Justified(approvals', log + [more], m)
  {
    var d :| 0 <= d < m && Grants(log[d], approvals[log[m].row], log[m]);
    var log' := log + [more];
    assert log'[d] == log[d] && log'[m] == log[m];
    assert Grants(log'[d], approvals'[log'[m].row], log'[m]);
  }

  lemma NotSpentYet(approvals: map<nat, Approval>, log: seq<Entry>, now: int, m: Entry)
    requires Authorised(approvals, log, now, m)
    ensures forall i :: 0 <= i < |log| && log[i].Spends() ==> log[i].row != m.row
  {
    hide LogOk, Decides, SpentAt;
    assert RowOk(log, m.row, approvals[m.row]);
  }

  lemma MutationKeepsLog(approvals: map<nat, Approval>, log: seq<Entry>, now: int, m: Entry)
    requires Authorised(approvals, log, now, m)
    ensures LogOk(SpentBy(approvals, m), log + [m], now)
  {
    hide Justified, RowsOk, RowsEvolve, NeedsRow, Authorises;
    var approvals', log' := SpentBy(approvals, m), log + [m];
    MutationKeepsRows(approvals, log, now, m);
    MutationIsJustified(approvals, log, now, m);
    NotSpentYet(approvals, log, now, m);
    forall k | 0 <= k < |log'| && log'[k].Mutation? ensures Justified(approvals', log', k) {
      if k < |log| { StaysJustified(approvals, approvals', log, m, k); }
    }
  }

  lemma CallKeepsInv(s: Sys, call: Call, pick: Option<nat>)
    requires Inv(s) && Callable(s, call, pick)
    ensures Inv(Called(s, call, pick)) && RowsEvolve(s.Approvals(), Called(s, call, pick).Approvals())
  {
    hide Execute, RowsOk, LogOk, RunsOk, LookedUp, NeedsRow, RequirementOf;
    CallTouchesOnlyItsRow(s.world, call, pick);
    HandlerEnteredIff(s.world, call, pick);
    var o, s' := Execute(s.world, call, pick), Called(s, call, pick);
    if o.called && NeedsRow(call) && pick.Some? {
      var m := Mutation(call, pick.value, o.result.Ok?);
      CalledIsAuthorised(s, call, pick);
      MutationKeepsRows(s.Approvals(), s.log, s.now, m);
      MutationKeepsLog(s.Approvals(), s.log, s.now, m);
    } else {
      assert s'.Approvals() == s.Approvals();
    }
    EvolvingKeepsRuns(s, s');
  }

  lemma CalledIsAuthorised(s: Sys, call: Call, pick: Option<nat>)
    requires Inv(s) && Callable(s, call, pick) && Execute(s.world, call, pick).called && NeedsRow(call)
    ensures var landed := Execute(s.world, call, pick).result.Ok?;
            pick.Some? && Authorised(s.Approvals(), s.log, s.now, Mutation(call, pick.value, landed))
  {
    hide Execute, RowsOk, LogOk, RunsOk;
    HandlerEnteredIff(s.world, call, pick);
  }

  lemma DecisionKeepsInv(s: Sys, row: nat, user: nat, approved: bool)
    requires Inv(s)
    ensures Inv(Decided(s, row, user, approved))
    ensures RowsEvolve(s.Approvals(), Decided(s, row, user, approved).Approvals())
  {
    hide RunsOk, ReviewDecision, HasAuthority, Authorises;
    RecordedIff(s.Approvals(), s.users, row, user, DEFAULT_AUTHORITY);
    var s' := Decided(s, row, user, approved);
    EvolvingKeepsRuns(s, s');
    if ReviewDecision(s.Approvals(), s.users, row, user, DEFAULT_AUTHORITY) == Recorded {
      DecisionKeepsRows(s, row, user, approved);
      DecisionKeepsLog(s, row, user, approved);
    }
  }

  lemma DecisionKeepsRows(s: Sys, row: nat, user: nat, approved: bool)
    requires Inv(s) && ReviewDecision(s.Approvals(), s.users, row, user, DEFAULT_AUTHORITY) == Recorded
    ensures RowsOk(Decided(s, row, user, approved).Approvals(), Decided(s, row, user, approved).log)
  {
    hide RunsOk, ReviewDecision, HasAuthority, LogOk;
    RecordedIff(s.Approvals(), s.users, row, user, DEFAULT_AUTHORITY);
    var s' := Decided(s, row, user, approved);
    var e := s'.log[|s.log|];
    forall k | k in s'.Approvals() ensures RowOk(s'.log, k, s'.Approvals()[k]) {
      var a, a' := s.Approvals()[k], s'.Approvals()[k];
      assert RowOk(s.log, k, a);
      if k == row {
        assert Decides(s'.log[|s.log|], row, a');
      } else if a.status != Pending {
        var i :| 0 <= i < |s.log| && Decides(s.log[i], k, a);
        assert s'.log[i] == s.log[i];
      }
      if a.consumedAt.Some? {
        var i :| 0 <= i < |s.log| && SpentAt(s.log[i], k, a.consumedAt.value);
        assert s'.log[i] == s.log[i];
      }
    }
  }

  lemma DecisionKeepsLog(s: Sys, row: nat, user: nat, approved: bool)
    requires Inv(s) && ReviewDecision(s.Approvals(), s.users, row, user, DEFAULT_AUTHORITY) == Recorded
    ensures LogOk(Decided(s, row, user, approved).Approvals(), Decided(s, row, user, approved).log, s.now)
  {
    hide RunsOk, ReviewDecision, HasAuthority, Justified;
    RecordedIff(s.Approvals(), s.users, row, user, DEFAULT_AUTHORITY);
    var s' := Decided(s, row, user, approved);
    assert RowOk(s.log, row, s.Approvals()[row]);
    var e := s'.log[|s.log|];
    assert s'.log == s.log + [e];
    forall m | 0 <= m < |s'.log| && s'.log[m].Mutation? ensures Justified(s'.Approvals(), s'.log, m) {
      StaysJustified(s.Approvals(), s'.Approvals(), s.log, e, m);
    }
  }

  lemma NewRowKeepsInv(s: Sys, row: nat, a: Approval)
    requires Inv(s) && row !in s.Approvals() && a.status == Pending && a.consumedAt.None?
    ensures Inv(WithApprovals(s, s.Approvals()[row := a])) && RowsEvolve(s.Approvals(), s.Approvals()[row := a])
  {
    hide RunsOk, Justified, Decides;
    var s' := WithApprovals(s, s.Approvals()[row := a]);
    EvolvingKeepsRuns(s, s');
    forall m | 0 <= m < |s.log| && s.log[m].Mutation? ensures Justified(s'.Approvals(), s.log, m) {
      SameRowSameJustification(s.Approvals(), s'.Approvals(), s.log, m);
    }
  }

  lemma SameRowSameJustification(approvals: map<nat, Approval>, approvals': map<nat, Approval>, log: seq<Entry>, m: nat)
    requires m < |log| && log[m].Mutation? && Justified(approvals, log, m)
    requires log[m].row in approvals' && approvals'[log[m].row] == approvals[log[m].row]
    ensures Justified(approvals', log, m)
  {
  }

  /** Every step of every part of the system keeps the invariant, and moves approval rows only forward. */
  lemma StepKeepsInv(s: Sys, step: Step)
    requires Inv(s) && Enabled(s, step)
    ensures Inv(Apply(s, step)) && RowsEvolve(s.Approvals(), Apply(s, step).Approvals())
    ensures Apply(s, step).policy == s.policy && s.now <= Apply(s, step).now
    ensures |s.log| <= |Apply(s, step).log| && Apply(s, step).log[..|s.log|] == s.log
  {
    hide Execute, Nodes.StateAt, Nodes.ShippedRun, Graph.Next, ReviewDecision, Callable, IsUpgradeCall, Validates;
    hide RowOk, Justified, GatesOk;
    match step
    case Begin(execution) => BeginKeepsInv(s, execution);
    case Visit(execution, input) => RunStepKeepsInv(s, execution, input);
    case ReadBilling(_, _) =>
    case ReadCrm(_) =>
    case ReadTier(_, _) =>
    case OpenGate(execution, row) =>
      var state := StateOf(s, execution);
      NewRowKeepsInv(s, row, PendingRow(execution, state.accountId.value, state.metadata.prorationAmount, s.now));
    case ResumeGate(execution, row) =>
      RunStepKeepsInv(s, execution, Nodes.GateRead(row, Some(s.Approvals()[row].status)));
    case WorkflowCall(_, call, pick) => CallKeepsInv(s, call, pick);
    case DirectCall(call, pick) => CallKeepsInv(s, call, pick);
    case HumanDecide(row, user, approved) => DecisionKeepsInv(s, row, user, approved);
    case Tick(_) =>
    case ChangeUsers(_) =>
    case Outside(_, _) =>
  }

  lemma BeginKeepsInv(s: Sys, execution: nat)
    requires Inv(s) && execution !in s.runs
    ensures Inv(s.(runs := s.runs[execution := []]))
  {
    hide RowsOk, LogOk;
    var none: seq<Nodes.Step> := [];
    assert Nodes.ShippedRun(s.policy, none);
  }

  // ---- Traces -----------------------------------------------------------------------------------------------

  lemma {:induction false} ReachableInv(s: Sys, steps: seq<Step>, k: nat)
    requires Trace(s, steps) && k <= |steps|
    ensures Inv(SysAt(s, steps, k)) && SysAt(s, steps, k).policy == s.policy
  {
    hide Inv, Enabled, Apply;
    if k == 0 {
      InitInv(s);
    } else {
      ReachableInv(s, steps, k - 1);
      assert EnabledAt(s, steps, k - 1);
      StepKeepsInv(SysAt(s, steps, k - 1), steps[k - 1]);
    }
  }

  lemma InitInv(s: Sys)
    requires Init(s)
    ensures Inv(s)
  {
  }

  /** Over any stretch of any trace: rows evolve, time does not run back, and the log only grows. */
  lemma {:induction false} TracesEvolve(s: Sys, steps: seq<Step>, i: nat, j: nat)
    requires Trace(s, steps) && i <= j <= |steps|
    ensures RowsEvolve(SysAt(s, steps, i).Approvals(), SysAt(s, steps, j).Approvals())
    ensures SysAt(s, steps, i).log <= SysAt(s, steps, j).log && SysAt(s, steps, i).now <= SysAt(s, steps, j).now
    decreases j - i
  {
    hide Inv, Enabled, Apply, SysAt, RowsEvolve;
    if i == j {
      RowsEvolveReflexively(SysAt(s, steps, i).Approvals());
    } else {
      TracesEvolve(s, steps, i, j - 1);
      ReachableInv(s, steps, j - 1);
      NextSys(s, steps, j - 1);
      StepKeepsInv(SysAt(s, steps, j - 1), steps[j - 1]);
      var first, last := SysAt(s, steps, i), SysAt(s, steps, j);
      RowsEvolveTransitively(first.Approvals(), SysAt(s, steps, j - 1).Approvals(), last.Approvals());
    }
  }

  lemma NextSys(s: Sys, steps: seq<Step>, k: nat)
    requires Trace(s, steps) && k < |steps|
    ensures Enabled(SysAt(s, steps, k), steps[k]) && SysAt(s, steps, k + 1) == Apply(SysAt(s, steps, k), steps[k])
  {
    hide Enabled, Apply;
    assert EnabledAt(s, steps, k);
  }

  lemma RowsEvolveReflexively(a: map<nat, Approval>)
    ensures RowsEvolve(a, a)
  {
  }

  // ---- What rows are asked for --------------------------------------------------------------------------

  /** The decision at `k` of the run asked for an approval. */
  ghost predicate Asked(steps: seq<Nodes.Step>, k: nat)
    requires k < |steps|
  {
    && steps[k].node == Routing.Decide && steps[k].input.Decided? && steps[k].input.assessment.Ok?
    && Assessment.NeedsApproval(steps[k].input.assessment.value, steps[k].input.consult)
  }

  ghost predicate HasAsked(s: Sys, execution: nat) {
    execution in s.runs && exists k :: 0 <= k < |s.runs[execution]| && Asked(s.runs[execution], k)
  }

  /** The decision at `k` asked for an approval of this amount: the price it had just worked out. */
  ghost predicate AskedFor(steps: seq<Nodes.Step>, k: nat, amount: Option<int>)
    requires k < |steps|
  {
    Asked(steps, k) && amount == Some(steps[k].input.assessment.value.amountDue)
  }

  ghost predicate HasAskedFor(s: Sys, execution: nat, amount: Option<int>) {
    execution in s.runs && exists k :: 0 <= k < |s.runs[execution]| && AskedFor(s.runs[execution], k, amount)
  }

  /** Every row on file belongs to a workflow that asked for one, for the price it was asked to approve. */
  ghost predicate RowsWereAskedFor(s: Sys) {
    forall row :: row in s.Approvals() ==> HasAskedFor(s, s.Approvals()[row].executionId, s.Approvals()[row].amount)
  }

  lemma GateFollowsARequest(s: Sys, execution: nat)
    requires StandsAt(s, execution, Routing.ApprovalGate) && Nodes.ShippedRun(s.policy, s.runs[execution])
    ensures HasAskedFor(s, execution, StateOf(s, execution).metadata.prorationAmount)
  {
    var steps := s.runs[execution];
    var last := |steps| - 1;
    assert steps[last].node == Routing.Decide;
    assert AskedFor(steps, last, StateOf(s, execution).metadata.prorationAmount);
  }

  lemma AskedStays(s: Sys, s': Sys, execution: nat, amount: Option<int>)
    requires HasAskedFor(s, execution, amount) && execution in s'.runs && s.runs[execution] <= s'.runs[execution]
    ensures HasAskedFor(s', execution, amount)
  {
    hide AskedFor;
    var k :| 0 <= k < |s.runs[execution]| && AskedFor(s.runs[execution], k, amount);
    SameAsked(s.runs[execution], s'.runs[execution], k, amount);
  }

  lemma SameAsked(steps: seq<Nodes.Step>, steps': seq<Nodes.Step>, k: nat, amount: Option<int>)
    requires k < |steps| && steps <= steps' && AskedFor(steps, k, amount)
    ensures AskedFor(steps', k, amount)
  {
  }

  lemma RunsOnlyGrow(s: Sys, step: Step, e: nat)
    requires Enabled(s, step) && e in s.runs
    ensures e in Apply(s, step).runs && s.runs[e] <= Apply(s, step).runs[e]
  {
    hide Execute, Nodes.StateAt, Nodes.Fits, Graph.Next, ReviewDecision, Callable, IsUpgradeCall, Validates;
  }

  lemma StepKeepsAsked(s: Sys, step: Step)
    requires Inv(s) && RowsWereAskedFor(s) && Enabled(s, step)
    ensures RowsWereAskedFor(Apply(s, step))
  {
    hide HasAskedFor, RowsOk, LogOk, GatesOk, Execute, ReviewDecision, Callable, IsUpgradeCall, Validates;
    hide Nodes.StateAt, Nodes.ShippedRun, Nodes.Fits, Graph.Next;
    StepKeepsInv(s, step);
    var s' := Apply(s, step);
    forall row | row in s'.Approvals()
      ensures HasAskedFor(s', s'.Approvals()[row].executionId, s'.Approvals()[row].amount)
    {
      var e, amount := s'.Approvals()[row].executionId, s'.Approvals()[row].amount;
      if row !in s.Approvals() {
        NewRowsComeFromTheGate(s, step, row);
        GateFollowsARequest(s, e);
      }
      assert HasAskedFor(s, e, amount);
      AskedHasARun(s, e, amount);
      RunsOnlyGrow(s, step, e);
      AskedStays(s, s', e, amount);
    }
  }

  lemma AskedHasARun(s: Sys, e: nat, amount: Option<int>)
    requires HasAskedFor(s, e, amount)
    ensures HasAsked(s, e) && e in s.runs
  {
    var k :| 0 <= k < |s.runs[e]| && AskedFor(s.runs[e], k, amount);
    assert Asked(s.runs[e], k);
  }

  lemma NewRowsComeFromTheGate(s: Sys, step: Step, row: nat)
    requires Enabled(s, step) && row in Apply(s, step).Approvals() && row !in s.Approvals()
    ensures step.OpenGate? && StandsAt(s, step.execution, Routing.ApprovalGate)
    ensures var a := Apply(s, step).Approvals()[row];
            a.executionId == step.execution && a.amount == StateOf(s, step.execution).metadata.prorationAmount
  {
    hide Execute, Nodes.StateAt, Nodes.Fits, Graph.Next, IsUpgradeCall, Validates, LookedUp, NeedsRow, RequirementOf;
    if step.WorkflowCall? || step.DirectCall? {
      CallTouchesOnlyItsRow(s.world, step.call, step.pick);
    }
  }

  lemma {:induction false} RowsAreAskedFor(s: Sys, steps: seq<Step>, k: nat)
    requires Trace(s, steps) && k <= |steps|
    ensures RowsWereAskedFor(SysAt(s, steps, k))
  {
    hide Inv, Enabled, Apply;
    if k > 0 {
      RowsAreAskedFor(s, steps, k - 1);
      ReachableInv(s, steps, k - 1);
      NextSys(s, steps, k - 1);
      StepKeepsAsked(SysAt(s, steps, k - 1), steps[k - 1]);
    }
  }

  // ---- Safety -----------------------------------------------------------------------------------------------

  /**
   In every reachable state, every mutation on record, by a workflow or by anyone else, was preceded by the
   decision of an active user with authority over the row's amount, on a row of that execution, action and
   entity, at most 24 hours before; and that amount is the price some decision of the execution asked for. The action
   is the one the mutation names, or else its tool's own.
   */
  lemma EveryMutationWasApproved(s: Sys, steps: seq<Step>, k: nat, m: nat) returns (d: nat)
    requires Trace(s, steps) && k <= |steps|
    requires m < |SysAt(s, steps, k).log| && SysAt(s, steps, k).log[m].Mutation?
    ensures var log, approvals := SysAt(s, steps, k).log, SysAt(s, steps, k).Approvals();
            && d < m && log[m].row in approvals && Grants(log[d], approvals[log[m].row], log[m])
            && Concerns(approvals[log[m].row], log[m].call)
            && approvals[log[m].row].decidedBy == Some(log[d].user)
            && 0 <= log[m].call.now - log[d].at <= 24 * 3_600_000_000
            && HasAskedFor(SysAt(s, steps, k), approvals[log[m].row].executionId, log[d].amount)
  {
    hide RowsOk, RunsOk, SysAt, HasAskedFor, NeedsRow, RequirementOf, HasAuthority, Concerns, Matches;
    ReachableInv(s, steps, k);
    RowsAreAskedFor(s, steps, k);
    var log, approvals := SysAt(s, steps, k).log, SysAt(s, steps, k).Approvals();
    assert Justified(approvals, log, m);
    d :| 0 <= d < m && Grants(log[d], approvals[log[m].row], log[m]);
    LooksForItsOwnRow(approvals, log[m].call, Some(log[m].row));
  }

  /** Each row is decided at most once, and spent at most once; once spent it authorises nothing any more. */
  lemma DecidedOnceSpentOnce(s: Sys, steps: seq<Step>, k: nat, i: nat, j: nat)
    requires Trace(s, steps) && k <= |steps| && i < j < |SysAt(s, steps, k).log|
    requires SysAt(s, steps, k).log[i].row == SysAt(s, steps, k).log[j].row
    ensures var log := SysAt(s, steps, k).log;
            && !(log[i].HumanDecision? && log[j].HumanDecision?)
            && !(log[i].Spends() && log[j].Mutation?)
  {
    hide RowsOk, RunsOk, SysAt, Justified;
    ReachableInv(s, steps, k);
  }

  /**
   A row's status changes at most once over any trace, away from PENDING; a row that is spent was approved, and
   from then on it never changes.
   */
  lemma RowsMoveForwardOnly(s: Sys, steps: seq<Step>, i: nat, j: nat, row: nat)
    requires Trace(s, steps) && i <= j <= |steps| && row in SysAt(s, steps, i).Approvals()
    ensures row in SysAt(s, steps, j).Approvals()
    ensures var a, a' := SysAt(s, steps, i).Approvals()[row], SysAt(s, steps, j).Approvals()[row];
            && RowEvolves(a, a')
            && a'.status in {Pending, Approved, Rejected}
            && (a.status != a'.status ==> a.status == Pending)
            && (a'.consumedAt.Some? ==> a'.status == Approved)
            && var log := SysAt(s, steps, j).log;
               && (a'.consumedAt.None? ==> forall m :: 0 <= m < |log| && log[m].Spends() ==> log[m].row != row)
               && (a'.consumedAt.Some? ==> exists m :: 0 <= m < |log| && SpentAt(log[m], row, a'.consumedAt.value))
  {
    hide LogOk, RunsOk, SysAt, Trace, Decides;
    TracesEvolve(s, steps, i, j);
    ReachableInv(s, steps, j);
    assert RowOk(SysAt(s, steps, j).log, row, SysAt(s, steps, j).Approvals()[row]);
  }

  /** Rows begin PENDING, at a gate; and nothing but a decision with authority ever changes a status. */
  lemma OnlyDecisionsChangeStatus(s: Sys, step: Step, row: nat)
    requires Inv(s) && Enabled(s, step) && row in Apply(s, step).Approvals()
    ensures row !in s.Approvals() ==> step.OpenGate? && Apply(s, step).Approvals()[row].status == Pending
    ensures row in s.Approvals() && Apply(s, step).Approvals()[row].status != s.Approvals()[row].status ==>
              && step.HumanDecide? && step.row == row && s.Approvals()[row].status == Pending
              && step.user in s.users && HasAuthority(s.users[step.user], s.Approvals()[row].amount, DEFAULT_AUTHORITY)
  {
    hide Execute, Nodes.StateAt, Nodes.Fits, Graph.Next, IsUpgradeCall, Validates, LookedUp, NeedsRow, RequirementOf;
    hide Inv, ReviewDecision, HasAuthority;
    if step.WorkflowCall? || step.DirectCall? {
      CallTouchesOnlyItsRow(s.world, step.call, step.pick);
    }
    if step.HumanDecide? {
      RecordedIff(s.Approvals(), s.users, step.row, step.user, DEFAULT_AUTHORITY);
    }
  }

  /**
   Nothing in the records or the portal changes without a mutation going on record, other systems aside, and
   the row it names was approved, unspent and fresh at that moment.
   */
  lemma EveryChangeIsOnRecord(s: Sys, step: Step)
    requires Enabled(s, step) && !step.Outside?
    requires || Apply(s, step).world.records.systems != s.world.records.systems
             || Apply(s, step).world.portal != s.world.portal
    ensures |Apply(s, step).log| == |s.log| + 1 && Apply(s, step).log[|s.log|].Mutation?
    ensures Apply(s, step).log[..|s.log|] == s.log
    ensures step.WorkflowCall? || step.DirectCall?
    ensures var m := Apply(s, step).log[|s.log|];
            && m.call == step.call && NeedsRow(m.call)
            && m.row in s.Approvals() && Authorises(s.Approvals()[m.row], m.call)
  {
    hide Nodes.StateAt, Nodes.Fits, Graph.Next, Validates, ReviewDecision, IsUpgradeCall, Execute, Authorises;
    if step.WorkflowCall? || step.DirectCall? {
      UnrecordedCallsChangeNothing(s, step.call, step.pick);
      HandlerEnteredIff(s.world, step.call, step.pick);
    }
  }

  lemma UnrecordedCallsChangeNothing(s: Sys, call: Call, pick: Option<nat>)
    requires Callable(s, call, pick)
    ensures Called(s, call, pick).log == s.log ==>
              && Called(s, call, pick).world.records.systems == s.world.records.systems
              && Called(s, call, pick).world.portal == s.world.portal
  {
    HandlerEnteredIff(s.world, call, pick);
  }

  // ---- What a workflow can touch ----------------------------------------------------------------------------

  /** Nothing of any other account differs, and this account's plan references moved to the target or not at all. */
  ghost predicate OnlyThisAccount(w: World, w': World, account: nat, target: string) {
    var systems, systems' := w.records.systems, w'.records.systems;
    && systems'.plans == systems.plans
    && systems'.subscriptions.Keys == systems.subscriptions.Keys && systems'.accounts.Keys == systems.accounts.Keys
    && (forall id :: id in systems.subscriptions ==>
          && (systems.subscriptions[id].account != account ==> systems'.subscriptions[id] == systems.subscriptions[id])
          && (systems'.subscriptions[id] == systems.subscriptions[id]
              || systems'.subscriptions[id] == systems.subscriptions[id].(planCode := target)))
    && (forall a :: a in systems.accounts ==>
          && (a != account ==> systems'.accounts[a] == systems.accounts[a])
          && (systems'.accounts[a] == systems.accounts[a] || systems'.accounts[a].currentPlanCode == Some(target)))
    && (forall a :: a != account ==>
          (a in w'.portal <==> a in w.portal) && (a in w.portal ==> w'.portal[a] == w.portal[a]))
  }

  /**
   A call of the execute node is about the run's own account, and what it changes is that account's, whatever
   the outcome and whatever the portal does; its entry on record names that account and the upgrade.
   */
  lemma WorkflowStaysOnItsAccount(s: Sys, execution: nat, call: Call, pick: Option<nat>)
    requires Enabled(s, WorkflowCall(execution, call, pick))
    ensures StateOf(s, execution).HasSubject()
    ensures var account, target := StateOf(s, execution).accountId.value, StateOf(s, execution).targetPlan.value;
            && NeedsRow(call) && RequirementOf(call) == Requirement(execution, UPGRADE, AccountEntity(account))
            && OnlyThisAccount(s.world, Called(s, call, pick).world, account, target)
  {
    hide Nodes.StateAt, Graph.Next, Refusal, LookedUp;
    var account := StateOf(s, execution).accountId.value;
    UpgradeCallsShareARow(call, execution, account);
    if call.work.ChangePlan? {
      assert call.work.subscription in SubscriptionsOf(s.world.records.systems, account);
    }
  }

  /** The system after the first `k` calls of an execute visit, each made when its own clock says. */
  ghost function AfterUpgradeCalls(s: Sys, execution: nat, calls: seq<(Call, Option<nat>)>, k: nat): Sys
    requires k <= |calls|
  {
    if k == 0 then s
    else CalledBy(AfterUpgradeCalls(s, execution, calls, k - 1).(now := calls[k - 1].0.now), execution,
                  calls[k - 1].0, calls[k - 1].1)
  }

  /** The calls one execute visit of this run could make now: what the runtime's ExecuteUpgrade promises of them. */
  ghost predicate UpgradeCalls(s: Sys, execution: nat, calls: seq<(Call, Option<nat>)>)
    requires execution in s.runs && StateOf(s, execution).HasSubject()
  {
    var account, target := StateOf(s, execution).accountId.value, StateOf(s, execution).targetPlan.value;
    UpgradeMade(s.world, execution, account, target, s.now, calls)
  }

  /** Where the run is after some of its calls: at the same visit, in the world those calls left. */
  ghost predicate Underway(s: Sys, execution: nat, calls: seq<(Call, Option<nat>)>, before: Sys, k: nat)
    requires k <= |calls|
  {
    && before.world == AfterCalls(s.world, calls, k) && |MadeBy(before, execution)| == k
    && before.runs == s.runs && before.policy == s.policy && before.now == if k == 0 then s.now else calls[k - 1].0.now
  }

  lemma NoCallsYet(w: World, calls: seq<(Call, Option<nat>)>)
    ensures AfterCalls(w, calls, 0) == w
  {
  }

  /** Each call of an execute visit is possible when its turn comes. */
  lemma NextUpgradeCall(s: Sys, execution: nat, calls: seq<(Call, Option<nat>)>, before: Sys, k: nat)
    requires Acts(s, execution, Routing.Execute) && UpgradeCalls(s, execution, calls)
    requires k < |calls| && Underway(s, execution, calls, before, k)
    ensures Enabled(before, Tick(calls[k].0.now))
    ensures Enabled(before.(now := calls[k].0.now), WorkflowCall(execution, calls[k].0, calls[k].1))
  {
    hide Execute, Nodes.StateAt, Graph.Next, LookedUp, NeedsRow, RequirementOf, AfterCalls;
    var ticked := before.(now := calls[k].0.now);
    NoCallsYet(s.world, calls);
    assert StateOf(ticked, execution) == StateOf(s, execution);
    UpgradeCallsShareARow(calls[k].0, execution, StateOf(s, execution).accountId.value);
    assert IsUpgradeCall(ticked, execution, calls[k].0);
  }

  /**
   One execute visit of the imperative runtime is a stretch of this protocol: a tick and a workflow call for
   each call it makes, then the visit that learns what they came to.
   */
  lemma {:induction false} ExecuteUpgradeIsAStretch(s: Sys, execution: nat, calls: seq<(Call, Option<nat>)>,
                                                    results: seq<ToolResult>, k: nat)
    requires Acts(s, execution, Routing.Execute) && MadeBy(s, execution) == []
    requires UpgradeCalls(s, execution, calls)
    requires CallsMade(s.world, Requirement(execution, UPGRADE, AccountEntity(StateOf(s, execution).accountId.value)),
                       calls, results)
    requires k <= |calls|
    ensures AfterUpgradeCalls(s, execution, calls, k).world == AfterCalls(s.world, calls, k)
    ensures AfterUpgradeCalls(s, execution, calls, k).runs == s.runs
            && AfterUpgradeCalls(s, execution, calls, k).policy == s.policy
    ensures MadeBy(AfterUpgradeCalls(s, execution, calls, k), execution) == results[..k]
    ensures var before := AfterUpgradeCalls(s, execution, calls, k);
            if k < |calls| then
              var tick, call := Tick(calls[k].0.now), WorkflowCall(execution, calls[k].0, calls[k].1);
              && Enabled(before, tick) && Enabled(Apply(before, tick), call)
              && Apply(Apply(before, tick), call) == AfterUpgradeCalls(s, execution, calls, k + 1)
            else Enabled(before, Visit(execution, Nodes.Executed(results)))
  {
    hide Execute, Nodes.StateAt, Graph.Next, LookedUp, Enabled, StandsAt;
    if k > 0 { ExecuteUpgradeIsAStretch(s, execution, calls, results, k - 1); }
    var before := AfterUpgradeCalls(s, execution, calls, k);
    if k < |calls| {
      NextUpgradeCall(s, execution, calls, before, k);
    } else {
      assert results[..k] == results;
      UpgradeVisit(s, execution, before, results);
    }
  }

  /** When its calls are made, the visit can learn what they came to. */
  lemma UpgradeVisit(s: Sys, execution: nat, before: Sys, results: seq<ToolResult>)
    requires Acts(s, execution, Routing.Execute) && before.runs == s.runs && before.policy == s.policy
    requires MadeBy(before, execution) == results && 2 <= |results| <= 3
    ensures Enabled(before, Visit(execution, Nodes.Executed(results)))
  {
    hide Nodes.StateAt, Graph.Next;
    assert StateOf(before, execution) == StateOf(s, execution);
  }

  // ---- Moments ---------------------------------------------------------------------------------------------

  /** The step resumes the run's gate, which reads the status the row has at that moment. */
  ghost predicate Resumes(s: Sys, step: Step, execution: nat, input: Nodes.Input) {
    && step.ResumeGate? && step.execution == execution && step.row in s.Approvals()
    && s.Approvals()[step.row].executionId == execution
    && input == Nodes.GateRead(step.row, Some(s.Approvals()[step.row].status))
  }

  /** The moment at which the run took its visit number `v`. */
  lemma {:induction false} VisitHappened(s: Sys, steps: seq<Step>, k: nat, execution: nat, v: nat) returns (i: nat)
    requires Trace(s, steps) && k <= |steps|
    requires execution in SysAt(s, steps, k).runs && v < |SysAt(s, steps, k).runs[execution]|
    ensures i < k && execution in SysAt(s, steps, i).runs
    ensures var run := SysAt(s, steps, k).runs[execution];
            && SysAt(s, steps, i).runs[execution] == run[..v]
            && (run[v].node != Routing.ApprovalGate ==> steps[i] == Visit(execution, run[v].input))
            && (run[v].node == Routing.ApprovalGate ==> Resumes(SysAt(s, steps, i), steps[i], execution, run[v].input))
            && At(SysAt(s, steps, i), execution) == Some(run[v].node)
  {
    hide At, Enabled, Apply;
    NextSys(s, steps, k - 1);
    var before, after := SysAt(s, steps, k - 1), SysAt(s, steps, k);
    RunOrigin(before, steps[k - 1], execution);
    if execution in before.runs && v < |before.runs[execution]| {
      i := VisitHappened(s, steps, k - 1, execution, v);
      assert after.runs[execution][..v] == before.runs[execution][..v];
    } else {
      i := k - 1;
      assert after.runs[execution][..v] == before.runs[execution];
    }
  }

  /** One step either leaves a run alone, begins it, or adds the one visit its edges prescribe. */
  lemma RunOrigin(s: Sys, step: Step, execution: nat)
    requires Enabled(s, step) && execution in Apply(s, step).runs
    ensures var run' := Apply(s, step).runs[execution];
            if execution !in s.runs then run' == []
            else
              || run' == s.runs[execution]
              || (|run'| == |s.runs[execution]| + 1 && run'[..|s.runs[execution]|] == s.runs[execution]
                  && At(s, execution) == Some(run'[|s.runs[execution]|].node)
                  && (run'[|s.runs[execution]|].node != Routing.ApprovalGate ==>
                        step == Visit(execution, run'[|s.runs[execution]|].input))
                  && (run'[|s.runs[execution]|].node == Routing.ApprovalGate ==>
                        Resumes(s, step, execution, run'[|s.runs[execution]|].input)))
  {
    hide Execute, Nodes.StateAt, Nodes.Fits, Graph.Next, ReviewDecision, Callable, IsUpgradeCall, Validates;
  }

  // ---- Workflows and humans ---------------------------------------------------------------------------------

  /**
   Before an execute visit whose decision needed approval there was a moment, the one at which its gate was
   resumed, when the run had not made that visit yet and the log already held a human's approval, with
   authority, of the row of its own execution that the gate read; and that row was APPROVED then.
   */
  lemma ExecuteHadAHuman(s: Sys, steps: seq<Step>, k: nat, execution: nat, at: nat) returns (j: nat, i: nat, d: nat)
    requires Trace(s, steps) && k <= |steps| && execution in SysAt(s, steps, k).runs
    requires var run := SysAt(s, steps, k).runs[execution];
             at < |run| && run[at].node == Routing.Execute
    ensures var run := SysAt(s, steps, k).runs[execution];
            && j < at && Nodes.ClearedBy(run, j, at)
            && (Assessment.NeedsApproval(run[j].input.assessment.value, run[j].input.consult) ==>
                  && j + 1 < at && i < k && ApprovedAtGate(SysAt(s, steps, i), steps[i], execution, run[..j + 1], d))
  {
    hide SysAt, LogOk, Nodes.ShippedRun, Nodes.StateAt, HasAuthority, Trace, At;
    ReachableInv(s, steps, k);
    var now := SysAt(s, steps, k);
    var run := now.runs[execution];
    i, d := 0, 0;
    j := Nodes.ExecuteIsCleared(now.policy, run, at);
    if Assessment.NeedsApproval(run[j].input.assessment.value, run[j].input.consult) {
      i := VisitHappened(s, steps, k, execution, j + 1);
      ReachableInv(s, steps, i);
      var resumed := SysAt(s, steps, i);
      var row := steps[i].row;
      assert RowOk(resumed.log, row, resumed.Approvals()[row]);
      d :| 0 <= d < |resumed.log| && Decides(resumed.log[d], row, resumed.Approvals()[row]);
    }
  }

  /** The step resumes the gate of a run that has made just these visits, on a row approved by entry `d` of the log. */
  ghost predicate ApprovedAtGate(s: Sys, step: Step, execution: nat, visits: seq<Nodes.Step>, d: nat) {
    && execution in s.runs && s.runs[execution] == visits
    && step.ResumeGate? && step.execution == execution && step.row in s.Approvals()
    && s.Approvals()[step.row].executionId == execution && s.Approvals()[step.row].status == Approved
    && d < |s.log| && Decides(s.log[d], step.row, s.Approvals()[step.row])
  }

  // ---- The automatic path -----------------------------------------------------------------------------------

  /**
   The automatic path: a workflow none of whose decisions asked for approval has no approval row, so each of
   its three tool calls is refused, and nothing it does changes anything.
   */
  lemma AutomaticPathChangesNothing(s: Sys, steps: seq<Step>, k: nat, execution: nat, call: Call, pick: Option<nat>)
    requires Trace(s, steps) && k <= |steps| && Enabled(SysAt(s, steps, k), WorkflowCall(execution, call, pick))
    requires !HasAsked(SysAt(s, steps, k), execution)
    ensures var now := SysAt(s, steps, k);
            && Execute(now.world, call, pick).result == Err(ErrApprovalRequired)
            && Called(now, call, pick).world.records == now.world.records
            && Called(now, call, pick).world.portal == now.world.portal
            && Called(now, call, pick).log == now.log
  {
    hide SysAt, HasAsked, HasAskedFor, Trace, Nodes.StateAt, Graph.Next, Execute, OnlyThisAccount;
    RowsAreAskedFor(s, steps, k);
    var now := SysAt(s, steps, k);
    forall row | row in now.Approvals() ensures HasAsked(now, now.Approvals()[row].executionId) {
      AskedHasARun(now, now.Approvals()[row].executionId, now.Approvals()[row].amount);
    }
    WorkflowStaysOnItsAccount(now, execution, call, pick);
    WithoutAnApprovalNothingChanges(now.world, execution, StateOf(now, execution).accountId.value, call, pick);
  }
}
