/**
 Two traces of the whole system, step by step: a retry that repeats an upgrade just read as agreeing, and a
 workflow that completes although the three systems never agreed at one moment. A tale is a trace told one step at
 a time, with what its last state shows.
 */
module Scenarios {
  import opened Common
  import opened Approvals
  import opened Completion
  import opened Protocol
  import opened Tools
  import Assessment
  import Budgets
  import Graph
  import Nodes
  import Routing
  import State
  import Thresholds
  import Validation

  // ---- Tales ------------------------------------------------------------------------------------------------

  /** One account with one active subscription, both numbered 0, and the workflow with execution number 0. */
  datatype Scene = Scene(
    policy: Budgets.BudgetPolicy, target: string, other: string, run: seq<Nodes.Step>, at: Option<Routing.Node>,
    state: State.State, billing: string, crm: string, tier: string, rows: map<nat, Approval>,
    made: seq<ToolResult>, reading: Option<Reading>)
  {
    /** Some system does not hold the target. */
    predicate Split() {
      billing != target || crm != target || tier != target
    }
  }

  const STAFF := map[0 := User(true, {"approver"})]

  ghost predicate Holds(w: World, c: Scene) {
    var systems := w.records.systems;
    && systems.subscriptions == map[0 := Subscription(0, c.billing, "active", 1)]
    && CrmAnswer(w, 0) == Some(c.crm)
    && systems.plans == map[c.other := true, c.target := true]
    && w.portal == map[0 := c.tier]
  }

  ghost predicate Shows(s: Sys, c: Scene) {
    && s.policy == c.policy && s.thresholds == Thresholds.DEFAULT_POLICY && s.users == STAFF && s.now == 0
    && 0 in s.runs && s.runs[0] == c.run && At(s, 0) == c.at && StateOf(s, 0) == c.state
    && Holds(s.world, c) && s.Approvals() == c.rows
    && MadeBy(s, 0) == c.made && Lookup(s.reading, 0) == c.reading
  }

  /** A trace so far, the state it has led to and what that shows; `apart`: the systems never all held the target. */
  datatype Tale = Tale(start: Sys, steps: seq<Step>, now: Sys, scene: Scene, apart: bool)

  ghost predicate Told(t: Tale) {
    && Trace(t.start, t.steps) && SysAt(t.start, t.steps, |t.steps|) == t.now && Shows(t.now, t.scene)
    && (t.apart ==> NeverTogether(t.start, t.steps, t.scene.target))
  }

  ghost predicate NeverTogether(s: Sys, steps: seq<Step>, target: string) {
    forall k :: 0 <= k <= |steps| ==> !AllHold(SysAt(s, steps, k).world, 0, target)
  }

  lemma {:induction false} SameMoments(s: Sys, steps: seq<Step>, more: seq<Step>, k: nat)
    requires k <= |steps|
    ensures SysAt(s, steps + more, k) == SysAt(s, steps, k)
  {
    hide Enabled, Apply;
    if k > 0 { SameMoments(s, steps, more, k - 1); }
  }

  lemma SplitMeansApart(s: Sys, c: Scene)
    requires Shows(s, c) && c.Split()
    ensures !AllHold(s.world, 0, c.target)
  {
    hide At, StateOf;
  }

  lemma TogetherNow(s: Sys, c: Scene)
    requires Shows(s, c) && !c.Split()
    ensures AllHold(s.world, 0, c.target)
  {
    hide At, StateOf;
    assert 0 in s.world.records.systems.subscriptions;
  }

  /** The tale goes on with one more step. */
  lemma Tell(t: Tale, step: Step, scene: Scene) returns (t': Tale)
    requires Told(t) && Enabled(t.now, step) && Shows(Apply(t.now, step), scene) && scene.target == t.scene.target
    ensures t' == Tale(t.start, t.steps + [step], Apply(t.now, step), scene, t.apart && scene.Split()) && Told(t')
  {
    hide Enabled, Apply, Shows, AllHold;
    t' := Tale(t.start, t.steps + [step], Apply(t.now, step), scene, t.apart && scene.Split());
    forall k | 0 <= k <= |t.steps|
      ensures SysAt(t.start, t'.steps, k) == SysAt(t.start, t.steps, k)
      ensures k < |t.steps| ==> EnabledAt(t.start, t'.steps, k)
    {
      SameMoments(t.start, t.steps, [step], k);
      if k < |t.steps| { assert EnabledAt(t.start, t.steps, k); }
    }
    assert SysAt(t.start, t'.steps, |t'.steps|) == t'.now;
    if t'.apart { SplitMeansApart(t'.now, scene); }
  }

  // ---- Visits -----------------------------------------------------------------------------------------------

  ghost function AfterVisit(c: Scene, input: Nodes.Input): Scene
    requires c.at.Some?
  {
    var step := Nodes.Step(c.at.value, input);
    var state := Nodes.StepState(c.state, step);
    c.(run := c.run + [step], at := Graph.Next(c.at.value, state, c.policy), state := state,
       made := [], reading := None)
  }

  /** The visit is the run's next one, and learned what the run had read and called. */
  ghost predicate CanVisit(s: Sys, c: Scene, input: Nodes.Input) {
    && c.at.Some? && c.at.value != Routing.ApprovalGate && Nodes.Fits(c.at.value, input)
    && (c.at.value == Routing.Decide ==>
          0 in s.runs && StateOf(s, 0).HasSubject() && input.Decided? && Assesses(s, 0, input))
    && (c.at.value == Routing.Execute ==> input.Executed? && c.made == input.results)
    && (c.at.value == Routing.Validate ==>
          input.SystemsRead? && c.reading == Some(AllRead(input.billing, input.crmPlan, input.tier)))
  }

  lemma VisitShows(s: Sys, c: Scene, input: Nodes.Input)
    requires Shows(s, c) && CanVisit(s, c, input)
    ensures Enabled(s, Visit(0, input)) && Shows(Apply(s, Visit(0, input)), AfterVisit(c, input))
  {
    hide Assesses, Nodes.Fits, Graph.Next, Nodes.StepState;
    RunGoesOn(s, c.at.value, input);
  }

  /** Where a run stands after one more visit. */
  lemma RunGoesOn(s: Sys, node: Routing.Node, input: Nodes.Input)
    requires 0 in s.runs
    ensures var s', state := Visited(s, 0, node, input), Nodes.StepState(StateOf(s, 0), Nodes.Step(node, input));
            StateOf(s', 0) == state && At(s', 0) == Graph.Next(node, state, s.policy)
  {
    hide Nodes.StateAt, Graph.Next, Nodes.StepState;
    var run := s.runs[0];
    Nodes.StatePrefix(run, [Nodes.Step(node, input)], |run|);
    Nodes.NextState(run + [Nodes.Step(node, input)], |run|);
  }

  lemma Visits(t: Tale, input: Nodes.Input) returns (t': Tale)
    requires Told(t) && CanVisit(t.now, t.scene, input)
    ensures Told(t') && t'.start == t.start && t'.steps == t.steps + [Visit(0, input)]
    ensures t'.scene == AfterVisit(t.scene, input) && t'.apart == (t.apart && t'.scene.Split())
  {
    hide Enabled, Apply, Shows, Assesses, Nodes.Fits, Nodes.StepState, Graph.Next;
    VisitShows(t.now, t.scene, input);
    t' := Tell(t, Visit(0, input), AfterVisit(t.scene, input));
  }

  /** A visit that reads nothing, to a node that needs nothing. */
  lemma Passes(t: Tale, input: Nodes.Input) returns (t': Tale)
    requires Told(t) && t.scene.at.Some? && Nodes.Fits(t.scene.at.value, input)
    requires t.scene.at.value !in {Routing.ApprovalGate, Routing.Decide, Routing.Execute, Routing.Validate}
    ensures Told(t') && t'.start == t.start && t'.steps == t.steps + [Visit(0, input)]
    ensures t'.scene == AfterVisit(t.scene, input) && t'.apart == (t.apart && t'.scene.Split())
  {
    hide Told, Nodes.Fits, Nodes.StepState, Graph.Next;
    t' := Visits(t, input);
  }

  // ---- The first visits of a plan -----------------------------------------------------------------------------

  function Plan(evidence: seq<string>): seq<Step> {
    [Visit(0, Nodes.Planned), Visit(0, Nodes.Found(0, evidence, [], true))]
  }

  /** Planner and research: the account is number 0, and the evidence suffices. */
  function Planned(s: State.State, evidence: seq<string>): State.State {
    s.(accountId := Some(0), evidence := s.evidence + evidence, status := State.Deciding,
       metadata := s.metadata.(evidenceSufficient := true))
  }

  lemma PlanLeaves(s: State.State, evidence: seq<string>, policy: Budgets.BudgetPolicy)
    requires evidence != []
    ensures var found := Nodes.Found(0, evidence, [], true);
            var s1 := Nodes.StepState(s, Nodes.Step(Routing.Planner, Nodes.Planned));
            var s2 := Nodes.StepState(s1, Nodes.Step(Routing.Research, found));
            && Nodes.Fits(Routing.Planner, Nodes.Planned) && Nodes.Fits(Routing.Research, found)
            && Graph.Next(Routing.Planner, s1, policy) == Some(Routing.Research)
            && s2 == Planned(s, evidence) && Graph.Next(Routing.Research, s2, policy) == Some(Routing.Decide)
  {
  }

  lemma Plans(t: Tale, evidence: seq<string>) returns (t': Tale)
    requires Told(t) && t.scene.at == Some(Routing.Planner) && evidence != []
    ensures Told(t') && t'.start == t.start && t'.steps == t.steps + Plan(evidence)
    ensures t'.scene == t.scene.(run := t'.scene.run, at := Some(Routing.Decide),
                                 state := Planned(t.scene.state, evidence), made := [], reading := None)
    ensures t'.apart == (t.apart && t.scene.Split())
  {
    hide Told, Nodes.Fits, Nodes.StepState, Graph.Next;
    PlanLeaves(t.scene.state, evidence, t.scene.policy);
    var t1 := Passes(t, Nodes.Planned);
    t' := Passes(t1, Nodes.Found(0, evidence, [], true));
  }

  // ---- The decision -------------------------------------------------------------------------------------------

  /** The decide visit for an upgrade that costs one unit, with the specialist out of reach. */
  function Assessed(other: string, target: string, discount: Option<real>): Nodes.Input {
    Nodes.Decided(
      Assessment.AssessUpgrade(Assessment.Offer(other, target, 100, discount), 0, Thresholds.DEFAULT_POLICY),
      Assessment.Unavailable)
  }

  predicate AsksFor(discount: Option<real>) {
    discount.Some? && discount.value > Thresholds.DEFAULT_POLICY.discountPercentThreshold
  }

  function DecidedState(s: State.State, asks: bool): State.State {
    s.(approvalStatus := if asks then State.Required else State.NotRequired,
       status := if asks then State.AwaitingApproval else State.Executing,
       metadata := s.metadata.(prorationAmount := Some(100)))
  }

  lemma DecisionLeaves(s: State.State, other: string, target: string, discount: Option<real>,
                       policy: Budgets.BudgetPolicy)
    requires s.HasSubject()
    ensures var input := Assessed(other, target, discount);
            var s' := Nodes.StepState(s, Nodes.Step(Routing.Decide, input));
            && Nodes.Fits(Routing.Decide, input) && s' == DecidedState(s, AsksFor(discount))
            && Graph.Next(Routing.Decide, s', policy)
               == Some(if AsksFor(discount) then Routing.ApprovalGate else Routing.Execute)
  {
    hide Assessment.AssessUpgrade;
    Assessment.OfferIsAssessed(other, target, 100, discount, Thresholds.DEFAULT_POLICY);
  }

  /** The offer is what the systems hold. */
  lemma OfferDescribes(w: World, c: Scene, discount: Option<real>)
    requires Holds(w, c) && c.billing == c.other != c.target
    ensures Describes(w.records.systems, 0, c.target, Assessment.Offer(c.other, c.target, 100, discount))
  {
    assert ActiveSubscription(w.records.systems, 0, 0);
  }

  lemma MakesDecision(t: Tale, discount: Option<real>) returns (t': Tale)
    requires Told(t) && t.scene.at == Some(Routing.Decide) && t.scene.state.HasSubject()
    requires t.scene.state.accountId == Some(0) && t.scene.state.targetPlan == Some(t.scene.target)
    requires t.scene.billing == t.scene.other != t.scene.target
    ensures Told(t') && t'.start == t.start
    ensures t'.steps == t.steps + [Visit(0, Assessed(t.scene.other, t.scene.target, discount))]
    ensures t'.scene == t.scene.(run := t'.scene.run,
                                 at := Some(if AsksFor(discount) then Routing.ApprovalGate else Routing.Execute),
                                 state := DecidedState(t.scene.state, AsksFor(discount)), made := [], reading := None)
    ensures t'.apart == (t.apart && t.scene.Split())
  {
    hide Nodes.Fits, Nodes.StepState, Graph.Next, Trace, SysAt, NeverTogether, Assessment.AssessUpgrade, Describes, At;
    hide Nodes.StateAt, AsksFor;
    var c, s := t.scene, t.now;
    DecisionLeaves(c.state, c.other, c.target, discount, c.policy);
    OfferDescribes(s.world, c, discount);
    var r := Assessment.Offer(c.other, c.target, 100, discount);
    assert Describes(s.world.records.systems, 0, c.target, r)
           && Assessed(c.other, c.target, discount).assessment == Assessment.AssessUpgrade(r, s.now, s.thresholds);
    t' := Visits(t, Assessed(c.other, c.target, discount));
  }

  // ---- The calls of an execute visit ------------------------------------------------------------------------

  /** How the portal answers: it does what was asked, but the confirmation does not come in time. */
  function TimesOut(target: string): PortalReply {
    Fails(Timeout, Some(target))
  }

  function TheCall(n: nat, target: string): Call {
    if n == 0 then BillingCall(0, 0, 0, target, 0)
    else if n == 1 then CrmCall(0, 0, target, 0)
    else PortalCall(0, 0, target, TimesOut(target), 0)
  }

  /** The three calls, in order, with the approval row their lookup finds. */
  function TheCalls(target: string, row: Option<nat>): seq<Step> {
    [WorkflowCall(0, TheCall(0, target), row), WorkflowCall(0, TheCall(1, target), row),
     WorkflowCall(0, TheCall(2, target), row)]
  }

  /** The run stands at execute, for account 0 and the target. */
  predicate Executes(c: Scene) {
    c.at == Some(Routing.Execute) && c.target != ""
    && c.state.accountId == Some(0) && c.state.targetPlan == Some(c.target)
  }

  lemma CallIsNext(s: Sys, c: Scene, n: nat, row: Option<nat>)
    requires Shows(s, c) && Executes(c) && |c.made| == n < 3
    requires LookedUp(c.rows, Requirement(0, UPGRADE, AccountEntity(0)), row)
    ensures Enabled(s, WorkflowCall(0, TheCall(n, c.target), row))
    ensures NeedsRow(TheCall(n, c.target))
            && RequirementOf(TheCall(n, c.target)) == Requirement(0, UPGRADE, AccountEntity(0))
  {
    hide At, StateOf, LookedUp, NeedsRow, RequirementOf;
    UpgradeCallsShareARow(TheCall(n, c.target), 0, 0);
    assert SubscriptionsOf(s.world.records.systems, 0) == {0};
  }

  const REFUSAL: ToolResult := Err(ErrApprovalRequired)

  function Refused(c: Scene): Scene {
    c.(made := c.made + [REFUSAL])
  }

  lemma RefusedShows(s: Sys, c: Scene, n: nat)
    requires Shows(s, c) && Executes(c) && |c.made| == n < 3 && c.rows == map[]
    ensures var step := WorkflowCall(0, TheCall(n, c.target), None);
            Enabled(s, step) && Shows(Apply(s, step), Refused(c))
  {
    hide At, StateOf, Enabled, NeedsRow, RequirementOf, Execute;
    CallIsNext(s, c, n, None);
    WithoutAnApprovalNothingChanges(s.world, 0, 0, TheCall(n, c.target), None);
    StandsStill(s, CalledBy(s, 0, TheCall(n, c.target), None));
  }

  /** A step that leaves the runs alone leaves the run where it stands. */
  lemma StandsStill(s: Sys, s': Sys)
    requires 0 in s.runs && s'.runs == s.runs && s'.policy == s.policy
    ensures At(s', 0) == At(s, 0) && StateOf(s', 0) == StateOf(s, 0)
  {
  }

  /** Without a row all three calls are refused. */
  lemma AllRefused(t: Tale) returns (t': Tale)
    requires Told(t) && Executes(t.scene) && t.scene.made == [] && t.scene.rows == map[]
    ensures Told(t') && t'.start == t.start && t'.steps == t.steps + TheCalls(t.scene.target, None)
    ensures t'.scene == t.scene.(made := [REFUSAL, REFUSAL, REFUSAL]) && t'.apart == (t.apart && t.scene.Split())
  {
    hide Enabled, Apply, Shows, TheCall, Trace, SysAt, NeverTogether;
    var target := t.scene.target;
    RefusedShows(t.now, t.scene, 0);
    var t1 := Tell(t, WorkflowCall(0, TheCall(0, target), None), Refused(t.scene));
    RefusedShows(t1.now, t1.scene, 1);
    var t2 := Tell(t1, WorkflowCall(0, TheCall(1, target), None), Refused(t1.scene));
    RefusedShows(t2.now, t2.scene, 2);
    t' := Tell(t2, WorkflowCall(0, TheCall(2, target), None), Refused(t2.scene));
    assert t'.scene.made == [REFUSAL, REFUSAL, REFUSAL];
  }

  /** Row 0, asked for and approved by user 0. */
  function ApprovedRow(): Approval {
    DecidedRow(PendingRow(0, 0, Some(100), 0), 0, true, 0)
  }

  /** What a call comes to under that row, and what it leaves: the portal call fails, so the row is not spent. */
  function Landed(c: Scene, n: nat): Scene {
    if n == 0 then c.(billing := c.target, made := c.made + [Ok(PlanChanged(c.billing, c.target))])
    else if n == 1 then c.(crm := c.target, made := c.made + [Ok(CrmSynced(c.target))])
    else c.(tier := c.target, made := c.made + [Err(ErrUpstreamTimeout)])
  }

  lemma RowFits(n: nat, target: string)
    requires n < 3
    ensures Refusal(map[0 := ApprovedRow()], TheCall(n, target), Some(0)) == None
    ensures LookedUp(map[0 := ApprovedRow()], Requirement(0, UPGRADE, AccountEntity(0)), Some(0))
  {
  }

  lemma LandedShows(s: Sys, c: Scene, n: nat)
    requires Shows(s, c) && Executes(c) && |c.made| == n < 3 && c.rows == map[0 := ApprovedRow()]
    ensures var step := WorkflowCall(0, TheCall(n, c.target), Some(0));
            Enabled(s, step) && Shows(Apply(s, step), Landed(c, n))
  {
    hide At, StateOf, Enabled, RequirementOf, LookedUp, Refusal, ApprovedRow;
    RowFits(n, c.target);
    CallIsNext(s, c, n, Some(0));
    StandsStill(s, CalledBy(s, 0, TheCall(n, c.target), Some(0)));
  }

  /** Under that row billing and the CRM move to the target; so does the portal, but its call times out. */
  lemma AllLand(t: Tale) returns (t': Tale)
    requires Told(t) && Executes(t.scene) && t.scene.made == [] && t.scene.rows == map[0 := ApprovedRow()]
    ensures Told(t') && t'.start == t.start && t'.steps == t.steps + TheCalls(t.scene.target, Some(0))
    ensures t'.scene == Landed(Landed(Landed(t.scene, 0), 1), 2)
  {
    hide Enabled, Apply, Shows, TheCall, Trace, SysAt, NeverTogether, ApprovedRow;
    var target := t.scene.target;
    LandedShows(t.now, t.scene, 0);
    var t1 := Tell(t, WorkflowCall(0, TheCall(0, target), Some(0)), Landed(t.scene, 0));
    LandedShows(t1.now, t1.scene, 1);
    var t2 := Tell(t1, WorkflowCall(0, TheCall(1, target), Some(0)), Landed(t1.scene, 1));
    LandedShows(t2.now, t2.scene, 2);
    t' := Tell(t2, WorkflowCall(0, TheCall(2, target), Some(0)), Landed(t2.scene, 2));
  }

  function ExecutedState(s: State.State, results: seq<ToolResult>): State.State
    requires |results| == 3
  {
    s.(executionResults := s.executionResults + Nodes.StepResults(results),
       errors := s.errors + Nodes.StepErrors(results), status := State.Validating)
  }

  lemma ExecutionLeaves(s: State.State, results: seq<ToolResult>, policy: Budgets.BudgetPolicy)
    requires s.HasSubject() && |results| == 3
    ensures var input := Nodes.Executed(results);
            var s' := Nodes.StepState(s, Nodes.Step(Routing.Execute, input));
            && Nodes.Fits(Routing.Execute, input) && s' == ExecutedState(s, results)
            && Graph.Next(Routing.Execute, s', policy) == Some(Routing.Validate)
  {
    hide Nodes.StepResults, Nodes.StepErrors;
  }

  lemma Learns(t: Tale) returns (t': Tale)
    requires Told(t) && Executes(t.scene) && |t.scene.made| == 3
    ensures Told(t') && t'.start == t.start && t'.steps == t.steps + [Visit(0, Nodes.Executed(t.scene.made))]
    ensures t'.scene == t.scene.(run := t'.scene.run, at := Some(Routing.Validate),
                                 state := ExecutedState(t.scene.state, t.scene.made), made := [], reading := None)
    ensures t'.apart == (t.apart && t.scene.Split())
  {
    hide Told, Nodes.Fits, Nodes.StepState, Graph.Next, ExecutedState;
    ExecutionLeaves(t.scene.state, t.scene.made, t.scene.policy);
    t' := Visits(t, Nodes.Executed(t.scene.made));
  }

  // ---- The gate -----------------------------------------------------------------------------------------------

  /** The gate asks, user 0 approves, and the gate reads the decision. */
  const APPROVAL := [OpenGate(0, 0), HumanDecide(0, 0, true), ResumeGate(0, 0)]

  lemma Asks(t: Tale) returns (t': Tale)
    requires Told(t) && t.scene.at == Some(Routing.ApprovalGate) && t.scene.rows == map[]
    requires t.scene.state.accountId == Some(0) && t.scene.state.metadata.prorationAmount == Some(100)
    ensures Told(t') && t'.start == t.start && t'.steps == t.steps + [OpenGate(0, 0)]
    ensures t'.scene == t.scene.(rows := map[0 := PendingRow(0, 0, Some(100), 0)])
  {
    hide Trace, SysAt, NeverTogether, At, StateOf;
    StandsStill(t.now, Apply(t.now, OpenGate(0, 0)));
    t' := Tell(t, OpenGate(0, 0), t.scene.(rows := map[0 := PendingRow(0, 0, Some(100), 0)]));
  }

  lemma UserMayDecide()
    ensures HasAuthority(STAFF[0], Some(100), DEFAULT_AUTHORITY)
  {
    assert "approver" in STAFF[0].roles && "approver" in DEFAULT_AUTHORITY.approverRoles;
  }

  lemma Approves(t: Tale) returns (t': Tale)
    requires Told(t) && t.scene.rows == map[0 := PendingRow(0, 0, Some(100), 0)]
    ensures Told(t') && t'.start == t.start && t'.steps == t.steps + [HumanDecide(0, 0, true)]
    ensures t'.scene == t.scene.(rows := map[0 := ApprovedRow()])
  {
    hide Trace, SysAt, NeverTogether, At, StateOf, ReviewDecision, HasAuthority;
    UserMayDecide();
    RecordedIff(t.now.Approvals(), t.now.users, 0, 0, DEFAULT_AUTHORITY);
    StandsStill(t.now, Apply(t.now, HumanDecide(0, 0, true)));
    t' := Tell(t, HumanDecide(0, 0, true), t.scene.(rows := map[0 := ApprovedRow()]));
  }

  function GrantedState(s: State.State): State.State {
    s.(approvalId := Some(0), approvalStatus := State.Granted, status := State.Executing)
  }

  lemma GrantLeaves(s: State.State, policy: Budgets.BudgetPolicy)
    ensures var input := Nodes.GateRead(0, Some(Approved));
            var s' := Nodes.StepState(s, Nodes.Step(Routing.ApprovalGate, input));
            && Nodes.Fits(Routing.ApprovalGate, input) && s' == GrantedState(s)
            && Graph.Next(Routing.ApprovalGate, s', policy) == Some(Routing.Execute)
  {
  }

  lemma GoesThrough(t: Tale) returns (t': Tale)
    requires Told(t) && t.scene.at == Some(Routing.ApprovalGate) && t.scene.rows == map[0 := ApprovedRow()]
    ensures Told(t') && t'.start == t.start && t'.steps == t.steps + [ResumeGate(0, 0)]
    ensures t'.scene == t.scene.(run := t'.scene.run, at := Some(Routing.Execute), state := GrantedState(t.scene.state),
                                 made := [], reading := None)
  {
    hide Trace, SysAt, NeverTogether, At, StateOf, Nodes.Fits, Nodes.StepState, Graph.Next;
    GrantLeaves(t.scene.state, t.scene.policy);
    RunGoesOn(t.now, Routing.ApprovalGate, Nodes.GateRead(0, Some(Approved)));
    t' := Tell(t, ResumeGate(0, 0), AfterVisit(t.scene, Nodes.GateRead(0, Some(Approved))));
  }

  /** A human approves, and the run stands at execute under row 0. */
  lemma GetsApproval(t: Tale) returns (t': Tale)
    requires Told(t) && t.scene.at == Some(Routing.ApprovalGate) && t.scene.rows == map[]
    requires t.scene.state.accountId == Some(0) && t.scene.state.metadata.prorationAmount == Some(100)
    ensures Told(t') && t'.start == t.start && t'.steps == t.steps + APPROVAL
    ensures t'.scene == t.scene.(run := t'.scene.run, at := Some(Routing.Execute), state := GrantedState(t.scene.state),
                                 rows := map[0 := ApprovedRow()], made := [], reading := None)
  {
    hide Told, ApprovedRow;
    var t1 := Asks(t);
    var t2 := Approves(t1);
    t' := GoesThrough(t2);
  }

  // ---- The reads of a validate visit --------------------------------------------------------------------------

  /** The run stands at validate, for account 0 and the target. */
  predicate Validating(c: Scene) {
    c.at == Some(Routing.Validate) && c.target != ""
    && c.state.accountId == Some(0) && c.state.targetPlan == Some(c.target)
  }

  function Active(plan: string): Option<(string, string)> {
    Some((plan, "active"))
  }

  lemma ReadsBilling(t: Tale) returns (t': Tale)
    requires Told(t) && Validating(t.scene) && t.scene.reading == None
    ensures Told(t') && t'.start == t.start && t'.steps == t.steps + [ReadBilling(0, Active(t.scene.billing))]
    ensures t'.scene == t.scene.(reading := Some(BillingRead(Active(t.scene.billing))))
    ensures t'.apart == (t.apart && t.scene.Split())
  {
    hide Trace, SysAt, NeverTogether, At, StateOf;
    var step := ReadBilling(0, Active(t.scene.billing));
    assert 0 in t.now.world.records.systems.subscriptions;
    StandsStill(t.now, Apply(t.now, step));
    t' := Tell(t, step, t.scene.(reading := Some(BillingRead(Active(t.scene.billing)))));
  }

  lemma ReadsCrm(t: Tale) returns (t': Tale)
    requires Told(t) && Validating(t.scene) && t.scene.reading.Some? && t.scene.reading.value.BillingRead?
    ensures Told(t') && t'.start == t.start && t'.steps == t.steps + [ReadCrm(0)]
    ensures t'.scene == t.scene.(reading := Some(CrmRead(t.scene.reading.value.billing, Some(t.scene.crm))))
    ensures t'.apart == (t.apart && t.scene.Split())
  {
    hide Trace, SysAt, NeverTogether, At, StateOf;
    StandsStill(t.now, Apply(t.now, ReadCrm(0)));
    t' := Tell(t, ReadCrm(0), t.scene.(reading := Some(CrmRead(t.scene.reading.value.billing, Some(t.scene.crm)))));
  }

  lemma ReadsTier(t: Tale) returns (t': Tale)
    requires Told(t) && Validating(t.scene) && t.scene.reading.Some? && t.scene.reading.value.CrmRead?
    ensures Told(t') && t'.start == t.start && t'.steps == t.steps + [ReadTier(0, Some(t.scene.tier))]
    ensures t'.scene == t.scene.(reading := Some(AllRead(t.scene.reading.value.billing, t.scene.reading.value.crm,
                                                         Some(t.scene.tier))))
    ensures t'.apart == (t.apart && t.scene.Split())
  {
    hide Trace, SysAt, NeverTogether, At, StateOf;
    var step, read := ReadTier(0, Some(t.scene.tier)), t.scene.reading.value;
    StandsStill(t.now, Apply(t.now, step));
    t' := Tell(t, step, t.scene.(reading := Some(AllRead(read.billing, read.crm, Some(t.scene.tier)))));
  }

  /** The visit that compares what was read. */
  lemma Compares(t: Tale, billing: string, crm: string, tier: string) returns (t': Tale)
    requires Told(t) && Validating(t.scene)
    requires t.scene.reading == Some(AllRead(Active(billing), Some(crm), Some(tier)))
    ensures Told(t') && t'.start == t.start
    ensures var input := Nodes.SystemsRead(Active(billing), Some(crm), Some(tier));
            && t'.steps == t.steps + [Visit(0, input)]
            && t'.scene.state == State.Merge(t.scene.state, Nodes.ValidateUpdate(t.scene.state, input))
            && t'.scene.run == t.scene.run + [Nodes.Step(Routing.Validate, input)]
    ensures t'.scene == t.scene.(run := t'.scene.run, state := t'.scene.state, made := [], reading := None,
                                 at := Graph.Next(Routing.Validate, t'.scene.state, t.scene.policy))
    ensures t'.apart == (t.apart && t.scene.Split())
  {
    hide Told, Graph.Next, Nodes.ValidateUpdate;
    t' := Visits(t, Nodes.SystemsRead(Active(billing), Some(crm), Some(tier)));
  }

  /** Nobody writes while the run reads and compares. */
  function Reading(plan: string): seq<Step> {
    [ReadBilling(0, Active(plan)), ReadCrm(0), ReadTier(0, Some(plan)), Visit(0, Agreeing(plan))]
  }

  /** All three systems read as holding this plan. */
  function Agreeing(plan: string): Nodes.Input {
    Nodes.SystemsRead(Active(plan), Some(plan), Some(plan))
  }

  lemma ReadsAll(t: Tale, plan: string) returns (t': Tale)
    requires Told(t) && Validating(t.scene) && t.scene.reading == None
    requires t.scene.billing == t.scene.crm == t.scene.tier == plan
    ensures Told(t') && t'.start == t.start && t'.steps == t.steps + Reading(plan)
    ensures t'.scene.state == State.Merge(t.scene.state, Nodes.ValidateUpdate(t.scene.state, Agreeing(plan)))
    ensures t'.scene.run == t.scene.run + [Nodes.Step(Routing.Validate, Agreeing(plan))]
    ensures t'.scene == t.scene.(run := t'.scene.run, state := t'.scene.state, made := [], reading := None,
                                 at := Graph.Next(Routing.Validate, t'.scene.state, t.scene.policy))
  {
    hide Told, Graph.Next, Nodes.ValidateUpdate;
    var t1 := ReadsBilling(t);
    var t2 := ReadsCrm(t1);
    var t3 := ReadsTier(t2);
    t' := Compares(t3, plan, plan, plan);
  }

  // ---- What a comparison leads to -----------------------------------------------------------------------------

  /** All that was read is the target: four checks passed, and no error. */
  lemma AgreementLeaves(s: State.State, target: string)
    requires s.HasSubject() && s.targetPlan == Some(target)
    ensures var s' := State.Merge(s, Nodes.ValidateUpdate(s, Agreeing(target)));
            && s' == s.(validationResults := s'.validationResults) && s'.validationResults != []
            && (s'.Dirty() <==> s.Dirty())
            && (State.NeedsReview in Routing.Verdicts(s'.validationResults)
                <==> State.NeedsReview in Routing.Verdicts(s.validationResults))
  {
    Nodes.ValidateLeaves(s, Agreeing(target));
    Validation.PassIffAgrees(Validation.Expected(target, "active", None), Nodes.Observation(Agreeing(target)));
  }

  function CheckedAgainst(target: string, plan: string): seq<State.ValidationResult> {
    Validation.Checks(Validation.Expected(target, "active", None), Nodes.Observation(Agreeing(plan)))
  }

  lemma OtherPlanFails(target: string, other: string)
    requires other != target
    ensures var results := CheckedAgainst(target, other);
            && results != [] && results[0].verdict == State.Fail
            && forall r :: r in results ==> r.verdict != State.NeedsReview
    ensures Validation.OverallVerdict(CheckedAgainst(target, other)) != State.Pass
  {
    var results := CheckedAgainst(target, other);
    Validation.PassIffAgrees(Validation.Expected(target, "active", None), Nodes.Observation(Agreeing(other)));
    assert results[0].verdict == State.Fail;
  }

  /** All that was read is another plan: a failure, and an error that is not retryable. */
  lemma DivergenceLeaves(s: State.State, target: string, other: string)
    requires s.HasSubject() && s.targetPlan == Some(target) && other != target && s.validationResults == []
    ensures var s' := State.Merge(s, Nodes.ValidateUpdate(s, Agreeing(other)));
            && s' == s.(validationResults := s'.validationResults, errors := s'.errors)
            && s'.Dirty() && State.NeedsReview !in Routing.Verdicts(s'.validationResults)
            && !Routing.LastFailureIsRetryable(s')
  {
    hide CheckedAgainst, Validation.OverallVerdict;
    OtherPlanFails(target, other);
    var results := CheckedAgainst(target, other);
    var u := Nodes.ValidateUpdate(s, Agreeing(other));
    ComparisonUpdate(s, target, other);
    assert s.validationResults + u.validationResults == results;
    assert results[0] in results;
    var errors := s.errors + u.errors;
    assert errors[|errors| - 1] == u.errors[0];
  }

  lemma ComparisonUpdate(s: State.State, target: string, plan: string)
    requires s.HasSubject() && s.targetPlan == Some(target)
    ensures var u, results := Nodes.ValidateUpdate(s, Agreeing(plan)), CheckedAgainst(target, plan);
            u == State.NO_UPDATE.(
              validationResults := results,
              errors := if Validation.OverallVerdict(results) == State.Pass then []
                        else [State.WorkflowError("validate", "cross_system_divergence", false)])
  {
    hide Validation.Checks, Validation.OverallVerdict;
  }

  /** The edge after a comparison, in the three cases these traces take. */
  lemma ComparisonRoutes(s: State.State, policy: Budgets.BudgetPolicy)
    ensures var next := Graph.Next(Routing.Validate, s, policy);
            && (s.validationResults != [] && !s.Dirty() ==> next == Some(Routing.Notify))
            && (s.Dirty() && State.NeedsReview !in Routing.Verdicts(s.validationResults) ==>
                  if Routing.LastFailureIsRetryable(s) && s.retryCount < policy.maxRetries
                  then next == Some(Routing.Retry)
                  else s.replanCount < policy.maxReplans ==> next == Some(Routing.Replan))
  {
    Routing.NotifyIffNothingButPass(s, policy);
  }

  lemma BookkeepingLeaves(s: State.State, policy: Budgets.BudgetPolicy)
    ensures Nodes.Fits(Routing.Replan, Nodes.Silent) && Nodes.Fits(Routing.Retry, Nodes.Silent)
    ensures var s' := Nodes.StepState(s, Nodes.Step(Routing.Replan, Nodes.Silent));
            s' == Graph.SpendReplan(s) && Graph.Next(Routing.Replan, s', policy) == Some(Routing.Planner)
  {
  }

  lemma EndingLeaves(s: State.State, policy: Budgets.BudgetPolicy)
    ensures Nodes.Fits(Routing.Notify, Nodes.Silent) && Nodes.Fits(Routing.Complete, Nodes.Silent)
    ensures forall s' :: Graph.Next(Routing.Notify, s', policy) == Some(Routing.Complete)
    ensures Nodes.StepState(s, Nodes.Step(Routing.Complete, Nodes.Silent)) == s.(status := State.Completed)
    ensures var s1 := Nodes.StepState(s, Nodes.Step(Routing.Notify, Nodes.Silent));
            s1.accountId == s.accountId && s1.targetPlan == s.targetPlan
  {
  }

  // ---- How both traces begin ----------------------------------------------------------------------------------

  /** One account with one active subscription; both plans are on sale. */
  function Books(billing: string, crm: string, target: string, other: string): Systems {
    Systems(map[0 := Subscription(0, billing, "active", 1)], map[0 := Account(Some(crm), None)],
            map[other := true, target := true])
  }

  /** Every system has the account on the `other` plan. */
  ghost function Start(policy: Budgets.BudgetPolicy, target: string, other: string): Sys {
    Sys(policy, Thresholds.DEFAULT_POLICY,
        World(Records(map[], Books(other, other, target, other)), map[0 := other], [], []),
        STAFF, map[], map[], map[], 0, [])
  }

  function Requested(target: string): Nodes.Input {
    Nodes.Classified(State.SubscriptionUpgrade, Some(target))
  }

  /** The workflow begins, and is classified as an upgrade to the target. */
  function Opening(target: string): seq<Step> {
    [Begin(0), Visit(0, Requested(target))]
  }

  function OpenedState(target: string): State.State {
    State.INITIAL.(workflowType := State.SubscriptionUpgrade, targetPlan := Some(target), status := State.Planning)
  }

  lemma RequestLeaves(target: string, policy: Budgets.BudgetPolicy)
    ensures var s' := Nodes.StepState(State.INITIAL, Nodes.Step(Routing.Supervisor, Requested(target)));
            && Nodes.Fits(Routing.Supervisor, Requested(target)) && s' == OpenedState(target)
            && Graph.Next(Routing.Supervisor, s', policy) == Some(Routing.Planner)
  {
  }

  /** What the records show before anything has moved. */
  ghost function Untouched(policy: Budgets.BudgetPolicy, target: string, other: string, run: seq<Nodes.Step>,
                           at: Routing.Node, state: State.State): Scene
  {
    Scene(policy, target, other, run, Some(at), state, other, other, other, map[], [], None)
  }

  lemma Begins(policy: Budgets.BudgetPolicy, target: string, other: string) returns (t: Tale)
    requires other != target
    ensures Told(t) && t.start == Start(policy, target, other) && t.steps == [Begin(0)] && t.apart
    ensures t.scene == Untouched(policy, target, other, [], Routing.Supervisor, State.INITIAL)
  {
    var s := Start(policy, target, other);
    var s' := Apply(s, Begin(0));
    var c := Untouched(policy, target, other, [], Routing.Supervisor, State.INITIAL);
    t := Tale(s, [Begin(0)], s', c, true);
    assert Shows(s', c);
    FirstStep(s);
    forall k | 0 <= k <= 1 ensures !AllHold(SysAt(s, t.steps, k).world, 0, target) {
      assert SysAt(s, t.steps, k).world == s'.world;
      SplitMeansApart(s', c);
    }
  }

  lemma FirstStep(s: Sys)
    requires Init(s)
    ensures Trace(s, [Begin(0)]) && SysAt(s, [Begin(0)], 0) == s && SysAt(s, [Begin(0)], 1) == Apply(s, Begin(0))
  {
    assert SysAt(s, [Begin(0)], 0) == s;
    assert EnabledAt(s, [Begin(0)], 0);
  }

  /** A plan that needs no human, and whose three calls are therefore refused. */
  function RefusedPlan(target: string, other: string, evidence: seq<string>): seq<Step> {
    Opening(target) + Plan(evidence) + [Visit(0, Assessed(other, target, None))] + TheCalls(target, None)
    + [Visit(0, Nodes.Executed([REFUSAL, REFUSAL, REFUSAL]))]
  }

  /** Both traces begin with such a plan: the run stands at validate, and nothing has moved. */
  lemma IsRefused(policy: Budgets.BudgetPolicy, target: string, other: string, evidence: seq<string>)
    returns (t: Tale)
    requires other != target && target != "" && evidence != []
    ensures Told(t) && t.start == Start(policy, target, other) && t.steps == RefusedPlan(target, other, evidence)
    ensures t.scene == Untouched(policy, target, other, t.scene.run, Routing.Validate, t.scene.state) && t.apart
    ensures var s := t.scene.state;
            && s.accountId == Some(0) && s.targetPlan == Some(target) && s.validationResults == []
            && s.retryCount == 0 && s.replanCount == 0
  {
    hide Told, Nodes.Fits, Nodes.StepState, Graph.Next, Nodes.StepResults, Nodes.StepErrors, TheCalls, Assessed;
    var t0 := Begins(policy, target, other);
    RequestLeaves(target, policy);
    var t1 := Passes(t0, Requested(target));
    assert t1.steps == Opening(target);
    var t2 := Plans(t1, evidence);
    var t3 := MakesDecision(t2, None);
    var t4 := AllRefused(t3);
    t := Learns(t4);
  }

  // ---- A retry of what just succeeded -------------------------------------------------------------------------

  /** The upgrade took effect everywhere, but the last call was not told so. */
  function AlmostDone(target: string, other: string): seq<ToolResult> {
    [Ok(PlanChanged(other, target)), Ok(CrmSynced(target)), Err(ErrUpstreamTimeout)]
  }

  /**
   An automatic plan is refused and validated as divergent; after a replan a discount is on record, a human
   approves, all three systems move to the target, and only the portal's confirmation times out.
   */
  function RetriedTrace(target: string, other: string, evidence: seq<string>): seq<Step> {
    RefusedPlan(target, other, evidence) + Reading(other) + [Visit(0, Nodes.Silent)]
    + Plan(evidence) + [Visit(0, Assessed(other, target, Some(30.0)))] + APPROVAL + TheCalls(target, Some(0))
    + [Visit(0, Nodes.Executed(AlmostDone(target, other)))] + Reading(target) + [Visit(0, Nodes.Silent)]
  }

  /** The first half: back at the planner, nothing has moved, and a failed comparison is on record. */
  lemma IsReplanned(policy: Budgets.BudgetPolicy, target: string, other: string, evidence: seq<string>)
    returns (t: Tale)
    requires other != target && target != "" && evidence != [] && policy.maxReplans > 0
    ensures Told(t) && t.start == Start(policy, target, other)
    ensures t.steps == RefusedPlan(target, other, evidence) + Reading(other) + [Visit(0, Nodes.Silent)]
    ensures t.scene == Untouched(policy, target, other, t.scene.run, Routing.Planner, t.scene.state)
    ensures var s := t.scene.state;
            && s.targetPlan == Some(target) && s.retryCount == 0
            && s.Dirty() && State.NeedsReview !in Routing.Verdicts(s.validationResults)
  {
    hide Told, Nodes.Fits, Nodes.StepState, Graph.Next, RefusedPlan, Reading, Nodes.ValidateUpdate, Routing.Verdicts;
    var t0 := IsRefused(policy, target, other, evidence);
    var t1 := ReadsAll(t0, other);
    DivergenceLeaves(t0.scene.state, target, other);
    ComparisonRoutes(t1.scene.state, policy);
    BookkeepingLeaves(t1.scene.state, policy);
    t := Passes(t1, Nodes.Silent);
  }

  /** The second plan: a human approved it, and the run stands at validate with a transient error on record. */
  lemma IsAlmostDone(t: Tale, evidence: seq<string>) returns (t': Tale)
    requires Told(t) && evidence != [] && t.scene.other != t.scene.target && t.scene.target != ""
    requires t.scene
             == Untouched(t.scene.policy, t.scene.target, t.scene.other, t.scene.run, Routing.Planner, t.scene.state)
    requires t.scene.state.targetPlan == Some(t.scene.target)
    ensures var target, other := t.scene.target, t.scene.other;
            && Told(t') && t'.start == t.start
            && t'.steps == t.steps + Plan(evidence) + [Visit(0, Assessed(other, target, Some(30.0)))] + APPROVAL
                           + TheCalls(target, Some(0)) + [Visit(0, Nodes.Executed(AlmostDone(target, other)))]
            && t'.scene == t.scene.(run := t'.scene.run, at := Some(Routing.Validate), state := t'.scene.state,
                                    billing := target, crm := target, tier := target, rows := map[0 := ApprovedRow()])
    ensures var s, s' := t.scene.state, t'.scene.state;
            && s'.accountId == Some(0) && s'.targetPlan == s.targetPlan
            && s'.validationResults == s.validationResults && s'.retryCount == s.retryCount
            && Routing.LastFailureIsRetryable(s')
  {
    hide Told, Nodes.Fits, Nodes.StepState, Graph.Next, TheCalls, Assessed, Nodes.StepResults, Nodes.StepErrors;
    hide ApprovedRow;
    var t1 := Plans(t, evidence);
    var t2 := MakesDecision(t1, Some(30.0));
    var t3 := GetsApproval(t2);
    var t4 := AllLand(t3);
    assert t4.scene.made == AlmostDone(t.scene.target, t.scene.other);
    t' := Learns(t4);
    Nodes.NoErrorIff(AlmostDone(t.scene.target, t.scene.other));
  }

  /**
   A retry does happen, under every policy that allows one replan and one retry: it repeats an upgrade that
   validate has just read as agreeing everywhere, and that does hold everywhere.
   */
  lemma RetryHappens(policy: Budgets.BudgetPolicy, target: string, other: string, evidence: seq<string>)
    requires policy.maxRetries > 0 && policy.maxReplans > 0
    requires other != target && target != "" && evidence != []
    ensures var s, steps := Start(policy, target, other), RetriedTrace(target, other, evidence);
            && Trace(s, steps) && 0 in SysAt(s, steps, |steps|).runs
            && var run := SysAt(s, steps, |steps|).runs[0];
               |run| >= 2 && run[|run| - 2] == Nodes.Step(Routing.Validate, Agreeing(target))
               && run[|run| - 1] == Nodes.Step(Routing.Retry, Nodes.Silent)
               && AllHold(SysAt(s, steps, |steps|).world, 0, target)
  {
    hide Nodes.Fits, Nodes.StepState, Graph.Next, RefusedPlan, Reading, Plan, Assessed, TheCalls, Nodes.ValidateUpdate;
    hide SysAt, Trace, Routing.Verdicts, At, StateOf, Holds, NeverTogether, ApprovedRow, MadeBy;
    var t0 := IsReplanned(policy, target, other, evidence);
    var t1 := IsAlmostDone(t0, evidence);
    var t2 := ReadsAll(t1, target);
    AgreementLeaves(t1.scene.state, target);
    ComparisonRoutes(t2.scene.state, policy);
    BookkeepingLeaves(t2.scene.state, policy);
    var t3 := Passes(t2, Nodes.Silent);
    assert t3.steps == RetriedTrace(target, other, evidence);
    TogetherNow(t3.now, t3.scene);
  }

  // ---- Completed without a common moment ----------------------------------------------------------------------

  lemma Moves(t: Tale, billing: string, crm: string, tier: string) returns (t': Tale)
    requires Told(t)
    ensures Told(t') && t'.start == t.start
    ensures t'.steps == t.steps + [Outside(Books(billing, crm, t.scene.target, t.scene.other), map[0 := tier])]
    ensures t'.scene == t.scene.(billing := billing, crm := crm, tier := tier)
    ensures t'.apart == (t.apart && t'.scene.Split())
  {
    hide Trace, SysAt, NeverTogether, At, StateOf;
    var step := Outside(Books(billing, crm, t.scene.target, t.scene.other), map[0 := tier]);
    StandsStill(t.now, Apply(t.now, step));
    t' := Tell(t, step, t.scene.(billing := billing, crm := crm, tier := tier));
  }

  /**
   After a plan whose calls were all refused, others move billing to the target and, once it has been read, away
   again; the CRM and the portal arrive only then, each before it is read.
   */
  function SplitTrace(target: string, other: string, evidence: seq<string>): seq<Step> {
    RefusedPlan(target, other, evidence)
    + [Outside(Books(target, other, target, other), map[0 := other]), ReadBilling(0, Active(target)),
       Outside(Books(other, target, target, other), map[0 := other]), ReadCrm(0),
       Outside(Books(other, target, target, other), map[0 := target]), ReadTier(0, Some(target)),
       Visit(0, Agreeing(target)), Visit(0, Nodes.Silent), Visit(0, Nodes.Silent)]
  }

  /** Validate reads each system while it holds the target, although they never all do. */
  lemma IsMisread(policy: Budgets.BudgetPolicy, target: string, other: string, evidence: seq<string>)
    returns (t: Tale)
    requires other != target && target != "" && evidence != []
    ensures Told(t) && t.start == Start(policy, target, other) && t.apart && t.scene.target == target
    ensures t.steps
            == RefusedPlan(target, other, evidence)
               + [Outside(Books(target, other, target, other), map[0 := other]), ReadBilling(0, Active(target)),
                  Outside(Books(other, target, target, other), map[0 := other]), ReadCrm(0),
                  Outside(Books(other, target, target, other), map[0 := target]), ReadTier(0, Some(target)),
                  Visit(0, Agreeing(target))]
    ensures t.scene.at == Some(Routing.Notify) && t.scene.policy == policy && t.scene.billing == other
    ensures t.scene.state.accountId == Some(0) && t.scene.state.targetPlan == Some(target)
  {
    hide Told, Graph.Next, RefusedPlan, Nodes.ValidateUpdate, Routing.Verdicts, Books;
    var t0 := IsRefused(policy, target, other, evidence);
    var t1 := Moves(t0, target, other, other);
    var t2 := ReadsBilling(t1);
    var t3 := Moves(t2, other, target, other);
    var t4 := ReadsCrm(t3);
    var t5 := Moves(t4, other, target, target);
    var t6 := ReadsTier(t5);
    t := Compares(t6, target, target, target);
    AgreementLeaves(t6.scene.state, target);
    ComparisonRoutes(t.scene.state, policy);
  }

  /**
   A workflow can end COMPLETED although at no moment of the whole trace did all three systems hold the target,
   and although every one of its own calls was refused.
   */
  lemma CompletedWithoutACommonMoment(policy: Budgets.BudgetPolicy, target: string, other: string,
                                      evidence: seq<string>)
    requires other != target && target != "" && evidence != []
    ensures var s, steps := Start(policy, target, other), SplitTrace(target, other, evidence);
            && Trace(s, steps) && 0 in SysAt(s, steps, |steps|).runs
            && Nodes.Ended(SysAt(s, steps, |steps|).runs[0])
            && StateOf(SysAt(s, steps, |steps|), 0).status == State.Completed
            && StateOf(SysAt(s, steps, |steps|), 0).accountId == Some(0)
            && StateOf(SysAt(s, steps, |steps|), 0).targetPlan == Some(target)
            && forall k :: 0 <= k <= |steps| ==> !AllHold(SysAt(s, steps, k).world, 0, target)
  {
    hide Nodes.Fits, Nodes.StepState, Graph.Next, RefusedPlan, Books;
    hide SysAt, Trace, Routing.Verdicts, At, Holds, AllHold, MadeBy;
    var t0 := IsMisread(policy, target, other, evidence);
    EndingLeaves(t0.scene.state, policy);
    var t1 := Passes(t0, Nodes.Silent);
    EndingLeaves(t1.scene.state, policy);
    var t2 := Passes(t1, Nodes.Silent);
    assert t2.steps == SplitTrace(target, other, evidence);
  }
}
