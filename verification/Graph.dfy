/**
 The graph's topology, its runs under any node behaviour, and how long a run can get.
 A run is a list of visits; each visit carries the update its node returned. Nodes may return any
 update at all (the update type has no counter fields), so every theorem here holds for every NodeSet.
 */
module Graph {
  import opened Common
  import opened State
  import opened Budgets
  import opened Routing

  datatype Visit = Visit(node: Node, update: Update)

  function SpendRetry(s: State): State {
    s.(retryCount := s.retryCount + 1)
  }

  function SpendReplan(s: State): State {
    s.(replanCount := s.replanCount + 1, retryCount := 0)
  }

  /** The state after a visit. The two bookkeeping nodes belong to the graph and ignore any update. */
  function After(s: State, v: Visit): State {
    match v.node
    case Retry => SpendRetry(s)
    case Replan => SpendReplan(s)
    case _ => Merge(s, v.update)
  }

  /** The validate edge goes through a counter node before any work is repeated. */
  function ValidateRouter(s: State, policy: BudgetPolicy): Node {
    match RouteAfterValidate(s, policy)
    case Execute => Retry
    case Planner => Replan
    case other => other
  }

  /** The node after `n`, given the state after its visit; None is the end of the graph. */
  function Next(n: Node, s: State, policy: BudgetPolicy): Option<Node> {
    match n
    case Supervisor => Some(RouteAfterSupervisor(s))
    case Planner => Some(Research)
    case Research => Some(RouteAfterResearch(s))
    case Decide => Some(RouteAfterDecide(s))
    case ApprovalGate => Some(RouteAfterApproval(s))
    case Execute => Some(Validate)
    case Validate => Some(ValidateRouter(s, policy))
    case Notify => Some(Complete)
    case Retry => Some(Execute)
    case Replan => Some(Planner)
    case Complete => None
    case Escalate => None
  }

  /** The visits are a run, or the beginning of one, that starts at node `n` in state `s`. */
  ghost predicate RunFrom(n: Node, s: State, policy: BudgetPolicy, visits: seq<Visit>)
    decreases |visits|
  {
    visits == [] ||
    (visits[0].node == n &&
     var s' := After(s, visits[0]);
     match Next(n, s', policy)
     case None => |visits| == 1
     case Some(m) => RunFrom(m, s', policy, visits[1..]))
  }

  ghost predicate Run(policy: BudgetPolicy, visits: seq<Visit>) {
    RunFrom(Supervisor, INITIAL, policy, visits)
  }

  /** The state after all the visits. */
  ghost function FinalState(s: State, visits: seq<Visit>): State
    decreases |visits|
  {
    if visits == [] then s else FinalState(After(s, visits[0]), visits[1..])
  }

  /** The run has reached the end of the graph. */
  ghost predicate Finished(visits: seq<Visit>) {
    visits != [] && visits[|visits| - 1].node in {Complete, Escalate}
  }

  function ExecuteVisits(visits: seq<Visit>): nat {
    if visits == [] then 0 else (if visits[0].node == Execute then 1 else 0) + ExecuteVisits(visits[1..])
  }

  // ---- How long a run can get -------------------------------------------------------------

  /** Retries the current plan still has. */
  function RetriesLeft(s: State, policy: BudgetPolicy): nat {
    Max(0, policy.maxRetries - s.retryCount)
  }

  function ReplansLeft(s: State, policy: BudgetPolicy): nat {
    Max(0, policy.maxReplans - s.replanCount)
  }

  predicate BudgetLeft(s: State, policy: BudgetPolicy) {
    RetriesLeft(s, policy) > 0 || ReplansLeft(s, policy) > 0
  }

  function Retries(policy: BudgetPolicy): nat { Max(0, policy.maxRetries) }

  function Replans(policy: BudgetPolicy): nat { Max(0, policy.maxReplans) }

  /** Visits one more plan costs: replan, planner to validate, and three for each of its retries. */
  function CycleCost(policy: BudgetPolicy): nat { 7 + 3 * Retries(policy) }

  /** The most visits a run can still make after a validate visit that left `s` behind and failed. */
  function Recovery(s: State, policy: BudgetPolicy): nat {
    3 * RetriesLeft(s, policy) + ReplansLeft(s, policy) * CycleCost(policy)
  }

  /** Nodes from `n` up to and including the next validate. */
  function ToValidate(n: Node): nat {
    match n
    case Supervisor => 7 case Planner => 6 case Research => 5 case Decide => 4
    case ApprovalGate => 3 case Execute => 2 case Validate => 1
    case _ => 0
  }

  /**
   The closing visits after the last validate: one (escalate) as soon as a budget was there to spend,
   because a recorded failure is never forgotten; two (notify, complete) when there was none.
   */
  ghost function Closing(s: State, policy: BudgetPolicy): nat {
    if !BudgetLeft(s, policy) && !s.Dirty() then 2 else 1
  }

  /** The most visits a run standing at `n` in state `s` can still make, this one included. */
  ghost function Potential(n: Node, s: State, policy: BudgetPolicy): nat {
    match n
    case Complete => 1
    case Escalate => 1
    case Notify => 2
    case Retry => 3 + Recovery(SpendRetry(s), policy) + 1
    case Replan => 7 + Recovery(SpendReplan(s), policy) + 1
    case _ => ToValidate(n) + Recovery(s, policy) + Closing(s, policy)
  }

  lemma RecoverySpent(s: State, policy: BudgetPolicy)
    ensures s.retryCount < policy.maxRetries ==> Recovery(s, policy) == 3 + Recovery(SpendRetry(s), policy)
    ensures s.replanCount < policy.maxReplans ==> Recovery(s, policy) >= 7 + Recovery(SpendReplan(s), policy)
  {
    if s.replanCount < policy.maxReplans {
      var left := ReplansLeft(s, policy);
      assert left * CycleCost(policy) == (left - 1) * CycleCost(policy) + CycleCost(policy);
    }
  }

  /** Recorded results only grow, so a failure on any visit stays visible to every later one. */
  lemma DirtyStays(s: State, v: Visit)
    requires s.Dirty()
    ensures After(s, v).Dirty()
  {
    var r :| r in s.validationResults && r.verdict != Pass;
    assert r in After(s, v).validationResults;
  }

  /** One visit uses up at least one unit of the potential, whatever the node returned. */
  lemma PotentialDrops(n: Node, s: State, v: Visit, policy: BudgetPolicy)
    requires v.node == n && Next(n, After(s, v), policy).Some?
    requires n in {Retry, Replan} ==> s.Dirty()
    ensures var m := Next(n, After(s, v), policy).value;
            Potential(m, After(s, v), policy) < Potential(n, s, policy)
            && (m in {Retry, Replan} ==> After(s, v).Dirty())
  {
    var s' := After(s, v);
    if s.Dirty() { DirtyStays(s, v); }
    if n == Validate {
      ValidateSpends(s, v, policy);
    } else if n != Retry && n != Replan {
      hide Verdicts;
      assert Recovery(s', policy) == Recovery(s, policy);
    }
  }

  lemma ValidateSpends(s: State, v: Visit, policy: BudgetPolicy)
    requires v.node == Validate && (s.Dirty() ==> After(s, v).Dirty())
    ensures var s' := After(s, v);
            var m := ValidateRouter(s', policy);
            Potential(m, s', policy) < Potential(Validate, s, policy) && (m in {Retry, Replan} ==> s'.Dirty())
  {
    hide Verdicts;
    var s' := After(s, v);
    NotifyIffNothingButPass(s', policy);
    RecoverySpent(s', policy);
    assert Recovery(s', policy) == Recovery(s, policy);
  }

  /** The most EXECUTE visits a run standing at `n` in state `s` can still make. */
  ghost function ExecutesLeft(n: Node, s: State, policy: BudgetPolicy): nat {
    var perPlan := Retries(policy) + 1;
    match n
    case Validate => RetriesLeft(s, policy) + ReplansLeft(s, policy) * perPlan
    case Retry => 1 + RetriesLeft(SpendRetry(s), policy) + ReplansLeft(s, policy) * perPlan
    case Replan => perPlan + ReplansLeft(SpendReplan(s), policy) * perPlan
    case Notify => 0 case Complete => 0 case Escalate => 0
    case _ => 1 + RetriesLeft(s, policy) + ReplansLeft(s, policy) * perPlan
  }

  lemma ExecutesDrop(n: Node, s: State, v: Visit, policy: BudgetPolicy)
    requires v.node == n && Next(n, After(s, v), policy).Some?
    ensures ExecutesLeft(Next(n, After(s, v), policy).value, After(s, v), policy)
            + (if n == Execute then 1 else 0) <= ExecutesLeft(n, s, policy)
  {
    var s' := After(s, v);
    if n != Retry && n != Replan {
      assert RetriesLeft(s', policy) == RetriesLeft(s, policy) && ReplansLeft(s', policy) == ReplansLeft(s, policy);
    }
    if n == Validate && s'.replanCount < policy.maxReplans {
      var left, perPlan := ReplansLeft(s', policy), Retries(policy) + 1;
      assert left * perPlan == (left - 1) * perPlan + perPlan;
    }
  }

  /** The visit bound from any point of a run. */
  lemma {:induction false} VisitsWithinPotential(n: Node, s: State, policy: BudgetPolicy, visits: seq<Visit>)
    requires RunFrom(n, s, policy, visits)
    requires n in {Retry, Replan} ==> s.Dirty()
    ensures |visits| <= Potential(n, s, policy)
    ensures ExecuteVisits(visits) <= ExecutesLeft(n, s, policy)
    decreases |visits|
  {
    if visits != [] && Next(n, After(s, visits[0]), policy).Some? {
      PotentialDrops(n, s, visits[0], policy);
      ExecutesDrop(n, s, visits[0], policy);
      VisitsWithinPotential(Next(n, After(s, visits[0]), policy).value, After(s, visits[0]), policy, visits[1..]);
    }
  }

  /** The most node visits any run makes. */
  function MostVisits(policy: BudgetPolicy): nat {
    var r, p := Retries(policy), Replans(policy);
    1 + (p + 1) * (6 + 3 * r) + p + (if r == 0 && p == 0 then 2 else 1)
  }

  lemma Expand(p: int, r: int)
    ensures (p + 1) * (6 + 3 * r) + p == (6 + 3 * r) + p * (7 + 3 * r)
  {
  }

  lemma FullRecovery(policy: BudgetPolicy)
    ensures Recovery(INITIAL, policy) == 3 * Retries(policy) + Replans(policy) * CycleCost(policy)
    ensures Closing(INITIAL, policy) == if Retries(policy) == 0 && Replans(policy) == 0 then 2 else 1
  {
    assert !INITIAL.Dirty();
  }

  lemma PotentialAtStart(policy: BudgetPolicy)
    ensures Potential(Supervisor, INITIAL, policy) == MostVisits(policy)
  {
    hide Recovery, Closing, Retries, Replans;
    FullRecovery(policy);
    Expand(Replans(policy), Retries(policy));
  }

  function MostExecutes(policy: BudgetPolicy): nat {
    (Replans(policy) + 1) * (Retries(policy) + 1)
  }

  /**
   Termination: whatever the nodes do, a run makes at most MostVisits visits, of which at most
   MostExecutes are EXECUTE visits, although every replan gives the retry budget back.
   */
  lemma RunsTerminate(policy: BudgetPolicy, visits: seq<Visit>)
    requires Run(policy, visits)
    ensures |visits| <= MostVisits(policy)
            <= 1 + (Replans(policy) + 1) * (6 + 3 * Retries(policy)) + Replans(policy) + 2
    ensures ExecuteVisits(visits) <= MostExecutes(policy)
  {
    VisitsWithinPotential(Supervisor, INITIAL, policy, visits);
    PotentialAtStart(policy);
  }

  /** With the default budgets, two retries and one replan, a run makes at most 27 visits, 6 of them to execute. */
  lemma DefaultRunsTerminate(visits: seq<Visit>)
    requires Run(DEFAULT_POLICY, visits)
    ensures |visits| <= 27 && ExecuteVisits(visits) <= 6
  {
    RunsTerminate(DEFAULT_POLICY, visits);
  }

  /** A run that has not reached an end can always take its next step, so the longest runs do end. */
  lemma {:induction false} RunsNeverGetStuck(n: Node, s: State, policy: BudgetPolicy, visits: seq<Visit>)
    requires RunFrom(n, s, policy, visits) && !Finished(visits)
    ensures exists v: Visit :: RunFrom(n, s, policy, visits + [v])
    decreases |visits|
  {
    if visits == [] {
      var v := Visit(n, NO_UPDATE);
      assert RunFrom(n, s, policy, visits + [v]);
    } else {
      var s' := After(s, visits[0]);
      var m := Next(n, s', policy).value;
      RunsNeverGetStuck(m, s', policy, visits[1..]);
      var v: Visit :| RunFrom(m, s', policy, visits[1..] + [v]);
      assert (visits + [v])[1..] == visits[1..] + [v];
      assert RunFrom(n, s, policy, visits + [v]);
    }
  }

  // ---- The bounds are exact ---------------------------------------------------------------

  /** Node behaviour that spends every budget: proceed everywhere, then fail validation transiently. */
  function Worst(n: Node, policy: BudgetPolicy): Update {
    match n
    case Supervisor => NO_UPDATE.(workflowType := Some(SubscriptionUpgrade))
    case Research => NO_UPDATE.(evidence := ["account"], metadata := Some(Metadata(true, None)))
    case Decide => NO_UPDATE.(approvalStatus := Some(Required), status := Some(AwaitingApproval))
    case ApprovalGate => NO_UPDATE.(approvalStatus := Some(Granted))
    case Validate =>
      if Retries(policy) + Replans(policy) == 0
      then NO_UPDATE.(validationResults := [ValidationResult(SubscriptionPlan, Billing, Pass, "", None)])
      else NO_UPDATE.(validationResults := [ValidationResult(SubscriptionPlan, Billing, Fail, "", None)],
                      errors := [WorkflowError("", "", true)])
    case _ => NO_UPDATE
  }

  /** What holds all along a run under Worst. */
  ghost predicate OnWorstRun(n: Node, s: State, policy: BudgetPolicy) {
    var budget := Retries(policy) + Replans(policy) > 0;
    && 0 <= s.retryCount && 0 <= s.replanCount
    && (forall r :: r in s.validationResults ==> r.verdict == if budget then Fail else Pass)
    && (s.Dirty() ==> budget)
    && (budget ==> BudgetLeft(s, policy) || s.Dirty())
    && (n == Retry ==> s.Dirty() && s.retryCount < policy.maxRetries)
    && (n == Replan ==> s.Dirty() && s.replanCount < policy.maxReplans && RetriesLeft(s, policy) == 0)
    && (n == Notify ==> !budget)
  }

  ghost predicate WorstContinues(n: Node, s: State, policy: BudgetPolicy) {
    var s' := After(s, Visit(n, Worst(n, policy)));
    match Next(n, s', policy)
    case None => false
    case Some(m) =>
      && OnWorstRun(m, s', policy)
      && Potential(n, s, policy) == 1 + Potential(m, s', policy)
      && ExecutesLeft(n, s, policy) == (if n == Execute then 1 else 0) + ExecutesLeft(m, s', policy)
  }

  lemma WorstProceeds(n: Node, s: State, policy: BudgetPolicy)
    requires OnWorstRun(n, s, policy) && n in {Supervisor, Planner, Research, Decide, ApprovalGate, Execute}
    ensures WorstContinues(n, s, policy)
  {
    var s' := After(s, Visit(n, Worst(n, policy)));
    assert s'.validationResults == s.validationResults;
    assert s'.Dirty() == s.Dirty();
    assert Recovery(s', policy) == Recovery(s, policy);
  }

  lemma WorstSpendsRetry(s: State, policy: BudgetPolicy)
    requires OnWorstRun(Retry, s, policy)
    ensures WorstContinues(Retry, s, policy)
  {
    assert SpendRetry(s).validationResults == s.validationResults;
    assert SpendRetry(s).Dirty();
  }

  lemma WorstSpendsReplan(s: State, policy: BudgetPolicy)
    requires OnWorstRun(Replan, s, policy)
    ensures WorstContinues(Replan, s, policy)
  {
    assert SpendReplan(s).validationResults == s.validationResults;
    assert SpendReplan(s).Dirty();
    assert RetriesLeft(SpendReplan(s), policy) == Retries(policy);
  }

  /** Without any budget the worst run simply passes. */
  lemma WorstPasses(s: State, policy: BudgetPolicy)
    requires OnWorstRun(Validate, s, policy) && Retries(policy) + Replans(policy) == 0
    ensures WorstContinues(Validate, s, policy)
  {
    var u := Worst(Validate, policy);
    var s' := After(s, Visit(Validate, u));
    assert s'.validationResults == s.validationResults + u.validationResults;
    assert !s'.Dirty() && s'.validationResults != [];
    NotifyIffNothingButPass(s', policy);
    assert !BudgetLeft(s, policy) && !BudgetLeft(s', policy);
    assert Recovery(s, policy) == Recovery(s', policy);
  }

  /** With a budget it fails, and recovery takes the retry, the replan or the way out. */
  lemma WorstFails(s: State, policy: BudgetPolicy)
    requires OnWorstRun(Validate, s, policy) && Retries(policy) + Replans(policy) > 0
    ensures var s' := After(s, Visit(Validate, Worst(Validate, policy)));
            && s'.Dirty()
            && (forall r :: r in s'.validationResults ==> r.verdict == Fail)
            && s'.retryCount == s.retryCount && s'.replanCount == s.replanCount
            && ValidateRouter(s', policy) ==
               if s.retryCount < policy.maxRetries then Retry
               else if s.replanCount < policy.maxReplans then Replan else Escalate
  {
    var u := Worst(Validate, policy);
    var s' := After(s, Visit(Validate, u));
    assert s'.validationResults == s.validationResults + u.validationResults;
    assert u.validationResults[0] in s'.validationResults;
    NotifyIffNothingButPass(s', policy);
    assert NeedsReview !in Verdicts(s'.validationResults);
    assert LastFailureIsRetryable(s');
  }

  lemma SameRecovery(s: State, s': State, policy: BudgetPolicy)
    requires s'.retryCount == s.retryCount && s'.replanCount == s.replanCount
    ensures Recovery(s', policy) == Recovery(s, policy)
  {
  }

  lemma OneLess(left: int, cost: int)
    ensures left * cost == (left - 1) * cost + cost
  {
  }

  /** With the retries gone, a replan costs exactly one more plan. */
  lemma ReplanSpends(s: State, policy: BudgetPolicy)
    requires 0 <= s.replanCount < policy.maxReplans && RetriesLeft(s, policy) == 0
    ensures Recovery(s, policy) == 7 + Recovery(SpendReplan(s), policy)
    ensures var perPlan := Retries(policy) + 1;
            ReplansLeft(s, policy) * perPlan == perPlan + ReplansLeft(SpendReplan(s), policy) * perPlan
  {
    OneLess(ReplansLeft(s, policy), CycleCost(policy));
    OneLess(ReplansLeft(s, policy), Retries(policy) + 1);
  }

  lemma WorstRecovers(s: State, policy: BudgetPolicy)
    requires OnWorstRun(Validate, s, policy) && Retries(policy) + Replans(policy) > 0
    ensures WorstContinues(Validate, s, policy)
  {
    WorstFails(s, policy);
    var s' := After(s, Visit(Validate, Worst(Validate, policy)));
    SameRecovery(s, s', policy);
    RecoverySpent(s', policy);
    if s'.retryCount >= policy.maxRetries && s'.replanCount < policy.maxReplans { ReplanSpends(s', policy); }
    NothingLeft(s', policy);
    hide Recovery, After, Worst, ValidateRouter;
    assert Closing(s, policy) == 1;
  }

  lemma NothingLeft(s: State, policy: BudgetPolicy)
    ensures !BudgetLeft(s, policy) ==> Recovery(s, policy) == 0
  {
  }

  lemma WorstValidates(s: State, policy: BudgetPolicy)
    requires OnWorstRun(Validate, s, policy)
    ensures WorstContinues(Validate, s, policy)
  {
    if Retries(policy) + Replans(policy) == 0 {
      WorstPasses(s, policy);
    } else {
      WorstRecovers(s, policy);
    }
  }

  lemma WorstStep(n: Node, s: State, policy: BudgetPolicy)
    requires OnWorstRun(n, s, policy) && n !in {Notify, Complete, Escalate}
    ensures WorstContinues(n, s, policy)
  {
    match n
    case Retry => WorstSpendsRetry(s, policy);
    case Replan => WorstSpendsReplan(s, policy);
    case Validate => WorstValidates(s, policy);
    case _ => WorstProceeds(n, s, policy);
  }

  lemma Prepend(n: Node, s: State, policy: BudgetPolicy, v: Visit, rest: seq<Visit>)
    requires v.node == n && Next(n, After(s, v), policy).Some? && rest != []
    requires RunFrom(Next(n, After(s, v), policy).value, After(s, v), policy, rest)
    ensures RunFrom(n, s, policy, [v] + rest)
    ensures ExecuteVisits([v] + rest) == (if n == Execute then 1 else 0) + ExecuteVisits(rest)
  {
    assert ([v] + rest)[1..] == rest;
  }

  /** From any point of such a run, the rest of it spends the whole potential. */
  lemma {:induction false} WorstRunFrom(n: Node, s: State, policy: BudgetPolicy) returns (visits: seq<Visit>)
    requires OnWorstRun(n, s, policy)
    ensures RunFrom(n, s, policy, visits) && Finished(visits)
    ensures |visits| == Potential(n, s, policy) && ExecuteVisits(visits) == ExecutesLeft(n, s, policy)
    decreases Potential(n, s, policy)
  {
    var v := Visit(n, Worst(n, policy));
    if n == Complete || n == Escalate {
      visits := [v];
    } else if n == Notify {
      visits := [Visit(Complete, NO_UPDATE)];
      Prepend(n, s, policy, v, visits);
      visits := [v] + visits;
    } else {
      WorstStep(n, s, policy);
      var rest := WorstRunFrom(Next(n, After(s, v), policy).value, After(s, v), policy);
      Prepend(n, s, policy, v, rest);
      visits := [v] + rest;
    }
  }

  /** For every budget policy some node behaviour makes exactly MostVisits and MostExecutes visits. */
  lemma BoundsAreReached(policy: BudgetPolicy) returns (visits: seq<Visit>)
    ensures Run(policy, visits) && Finished(visits)
    ensures |visits| == MostVisits(policy) && ExecuteVisits(visits) == MostExecutes(policy)
  {
    PotentialAtStart(policy);
    var r, p := Retries(policy), Replans(policy);
    assert (p + 1) * (r + 1) == 1 + r + p * (r + 1);
    assert ReplansLeft(INITIAL, policy) == p && RetriesLeft(INITIAL, policy) == r;
    assert OnWorstRun(Supervisor, INITIAL, policy);
    visits := WorstRunFrom(Supervisor, INITIAL, policy);
  }
}
