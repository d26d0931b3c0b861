/**
 What a completed workflow says about the world. Validate reads billing, the CRM and the portal one after the
 other, and others may write in between: each system held the target when it was read, but not necessarily at
 one common moment.
 */
module Completion {
  import opened Common
  import opened Approvals
  import opened Protocol
  import opened Tools
  import Graph
  import Nodes
  import State

  // ---- The reads of a validate visit -----------------------------------------------------------------------

  /** One step keeps a reading and the run it belongs to, or is one of the three reads. */
  lemma ReadingOrigin(s: Sys, step: Step, execution: nat)
    requires Enabled(s, step) && execution in Apply(s, step).reading
    requires execution in s.reading ==> Validates(s, execution)
    ensures execution in s.runs && execution in Apply(s, step).runs
            && Apply(s, step).runs[execution] == s.runs[execution] && Apply(s, step).policy == s.policy
    ensures Validates(s, execution) && Validates(Apply(s, step), execution)
    ensures match Apply(s, step).reading[execution]
            case BillingRead(billing) =>
              || (execution in s.reading && s.reading[execution] == BillingRead(billing))
              || step == ReadBilling(execution, billing)
            case CrmRead(billing, crm) =>
              execution in s.reading &&
              (s.reading[execution] == CrmRead(billing, crm)
               || (s.reading[execution] == BillingRead(billing) && step == ReadCrm(execution)
                   && crm == CrmAnswer(s.world, AccountOf(s, execution))))
            case AllRead(billing, crm, tier) =>
              execution in s.reading &&
              (s.reading[execution] == AllRead(billing, crm, tier)
               || (s.reading[execution] == CrmRead(billing, crm) && step == ReadTier(execution, tier)))
  {
    hide Execute, Nodes.StateAt, Nodes.Fits, Graph.Next, ReviewDecision, Callable, IsUpgradeCall;
  }

  lemma {:induction false} ReadersValidate(s: Sys, steps: seq<Step>, k: nat, execution: nat)
    requires Trace(s, steps) && k <= |steps| && execution in SysAt(s, steps, k).reading
    ensures Validates(SysAt(s, steps, k), execution)
  {
    hide Enabled, Apply, Validates;
    NextSys(s, steps, k - 1);
    if execution in SysAt(s, steps, k - 1).reading { ReadersValidate(s, steps, k - 1, execution); }
    ReadingOrigin(SysAt(s, steps, k - 1), steps[k - 1], execution);
  }

  /** The run stayed where it is from moment `i` to moment `k`. */
  ghost predicate StaysPut(s: Sys, steps: seq<Step>, i: nat, k: nat, execution: nat)
    requires i <= k <= |steps|
  {
    && Validates(SysAt(s, steps, k), execution)
    && forall m :: i <= m <= k ==>
      && Validates(SysAt(s, steps, m), execution)
      && SysAt(s, steps, m).runs[execution] == SysAt(s, steps, k).runs[execution]
  }

  lemma StaysOn(s: Sys, steps: seq<Step>, i: nat, k: nat, execution: nat)
    requires 0 < k <= |steps| && i <= k - 1 && StaysPut(s, steps, i, k - 1, execution)
    requires Validates(SysAt(s, steps, k), execution) && Validates(SysAt(s, steps, k - 1), execution)
    requires SysAt(s, steps, k).runs[execution] == SysAt(s, steps, k - 1).runs[execution]
    ensures StaysPut(s, steps, i, k, execution)
  {
    hide SysAt;
  }

  /** The last step before a moment at which something has been read. */
  lemma Before(s: Sys, steps: seq<Step>, k: nat, execution: nat)
    requires Trace(s, steps) && k <= |steps| && execution in SysAt(s, steps, k).reading
    ensures k > 0
    ensures var before, now := SysAt(s, steps, k - 1), SysAt(s, steps, k);
            && Enabled(before, steps[k - 1]) && now == Apply(before, steps[k - 1])
            && Validates(before, execution) && Validates(now, execution)
            && now.runs[execution] == before.runs[execution]
  {
    hide Enabled, Apply, At;
    ReadersValidate(s, steps, k, execution);
    NextSys(s, steps, k - 1);
    if execution in SysAt(s, steps, k - 1).reading { ReadersValidate(s, steps, k - 1, execution); }
    ReadingOrigin(SysAt(s, steps, k - 1), steps[k - 1], execution);
  }

  /** The moment of the billing read: billing could answer so then, and the run has not moved since. */
  lemma {:induction false} BillingReadAt(s: Sys, steps: seq<Step>, k: nat, execution: nat) returns (i: nat)
    requires Trace(s, steps) && k <= |steps| && execution in SysAt(s, steps, k).reading
    requires SysAt(s, steps, k).reading[execution].BillingRead?
    ensures i < k && StaysPut(s, steps, i, k, execution)
    ensures steps[i] == ReadBilling(execution, SysAt(s, steps, k).reading[execution].billing)
  {
    hide Enabled, Apply, At, SysAt;
    Before(s, steps, k, execution);
    ReadingOrigin(SysAt(s, steps, k - 1), steps[k - 1], execution);
    if steps[k - 1] == ReadBilling(execution, SysAt(s, steps, k).reading[execution].billing) {
      i := k - 1;
    } else {
      i := BillingReadAt(s, steps, k - 1, execution);
      StaysOn(s, steps, i, k, execution);
    }
  }

  /** The moments of the first two reads. */
  lemma {:induction false} CrmReadAt(s: Sys, steps: seq<Step>, k: nat, execution: nat) returns (i1: nat, i2: nat)
    requires Trace(s, steps) && k <= |steps| && execution in SysAt(s, steps, k).reading
    requires SysAt(s, steps, k).reading[execution].CrmRead?
    ensures i1 < i2 < k && StaysPut(s, steps, i1, k, execution)
    ensures steps[i1] == ReadBilling(execution, SysAt(s, steps, k).reading[execution].billing)
    ensures steps[i2] == ReadCrm(execution)
    ensures SysAt(s, steps, k).reading[execution].crm
            == CrmAnswer(SysAt(s, steps, i2).world, AccountOf(SysAt(s, steps, i2), execution))
  {
    hide Enabled, Apply, At, SysAt;
    Before(s, steps, k, execution);
    ReadingOrigin(SysAt(s, steps, k - 1), steps[k - 1], execution);
    if SysAt(s, steps, k - 1).reading[execution].BillingRead? {
      i1 := BillingReadAt(s, steps, k - 1, execution);
      i2 := k - 1;
    } else {
      i1, i2 := CrmReadAt(s, steps, k - 1, execution);
    }
    StaysOn(s, steps, i1, k, execution);
  }

  /** The moments of all three reads. */
  lemma {:induction false} AllReadAt(s: Sys, steps: seq<Step>, k: nat, execution: nat)
    returns (i1: nat, i2: nat, i3: nat)
    requires Trace(s, steps) && k <= |steps| && execution in SysAt(s, steps, k).reading
    requires SysAt(s, steps, k).reading[execution].AllRead?
    ensures i1 < i2 < i3 < k && StaysPut(s, steps, i1, k, execution)
    ensures steps[i1] == ReadBilling(execution, SysAt(s, steps, k).reading[execution].billing)
    ensures steps[i2] == ReadCrm(execution)
    ensures SysAt(s, steps, k).reading[execution].crm
            == CrmAnswer(SysAt(s, steps, i2).world, AccountOf(SysAt(s, steps, i2), execution))
    ensures steps[i3] == ReadTier(execution, SysAt(s, steps, k).reading[execution].tier)
  {
    hide Enabled, Apply, At, SysAt;
    Before(s, steps, k, execution);
    ReadingOrigin(SysAt(s, steps, k - 1), steps[k - 1], execution);
    if SysAt(s, steps, k - 1).reading[execution].CrmRead? {
      i1, i2 := CrmReadAt(s, steps, k - 1, execution);
      i3 := k - 1;
    } else {
      i1, i2, i3 := AllReadAt(s, steps, k - 1, execution);
    }
    StaysOn(s, steps, i1, k, execution);
  }

  // ---- Completion -------------------------------------------------------------------------------------------

  /** Billing has the account on the target plan, in an active subscription. */
  ghost predicate BillingHolds(w: World, account: nat, target: string) {
    exists id ::
      && id in w.records.systems.subscriptions
      && w.records.systems.subscriptions[id].account == account
      && w.records.systems.subscriptions[id].status == "active"
      && w.records.systems.subscriptions[id].planCode == target
  }

  ghost predicate CrmHolds(w: World, account: nat, target: string) {
    && account in w.records.systems.accounts
    && w.records.systems.accounts[account].currentPlanCode == Some(target)
  }

  ghost predicate PortalHolds(w: World, account: nat, target: string) {
    account in w.portal && w.portal[account] == target
  }

  ghost predicate AllHold(w: World, account: nat, target: string) {
    BillingHolds(w, account, target) && CrmHolds(w, account, target) && PortalHolds(w, account, target)
  }

  /** Billing and the CRM hold the same about the account in both worlds. */
  ghost predicate SameRecords(w: World, w': World, account: nat) {
    var systems, systems' := w.records.systems, w'.records.systems;
    && (forall id :: id in systems.subscriptions && systems.subscriptions[id].account == account ==>
          id in systems'.subscriptions && systems'.subscriptions[id] == systems.subscriptions[id])
    && CrmAnswer(w', account) == CrmAnswer(w, account)
  }

  /** No step from `i` up to `k` changed what billing or the CRM hold about the account. */
  ghost predicate Undisturbed(s: Sys, steps: seq<Step>, i: nat, k: nat, account: nat)
    requires i <= k <= |steps|
  {
    forall m :: i <= m < k ==> SameRecords(SysAt(s, steps, m).world, SysAt(s, steps, m + 1).world, account)
  }

  lemma {:induction false} UndisturbedHolds(s: Sys, steps: seq<Step>, i: nat, j: nat, k: nat, account: nat,
                                            target: string)
    requires i <= j <= k <= |steps| && Undisturbed(s, steps, i, k, account)
    ensures BillingHolds(SysAt(s, steps, i).world, account, target) ==>
              BillingHolds(SysAt(s, steps, j).world, account, target)
    ensures CrmHolds(SysAt(s, steps, j).world, account, target) <==> CrmHolds(SysAt(s, steps, i).world, account, target)
    decreases j - i
  {
    hide SysAt;
    if i < j {
      UndisturbedHolds(s, steps, i, j - 1, k, account, target);
      assert SameRecords(SysAt(s, steps, j - 1).world, SysAt(s, steps, j - 1 + 1).world, account);
    }
  }

  /**
   A workflow that ended COMPLETED read, during its validate visit and in this order, billing, the CRM and the
   portal, and each held the target plan for its account at the moment it was read. That all three held it together
   is not implied; that nothing wrote to the account in billing or the CRM between the first read and the last is
   sufficient for it, not necessary.
   */
  lemma CompletedWasRead(s: Sys, steps: seq<Step>, k: nat, execution: nat)
    returns (i1: nat, i2: nat, i3: nat, i: nat)
    requires Trace(s, steps) && k <= |steps| && execution in SysAt(s, steps, k).runs
    requires Nodes.Ended(SysAt(s, steps, k).runs[execution])
    requires StateOf(SysAt(s, steps, k), execution).status == State.Completed
    ensures i1 < i2 < i3 < i < k && StaysPut(s, steps, i1, i, execution) && steps[i].Visit?
            && steps[i].execution == execution
    ensures StateOf(SysAt(s, steps, k), execution).HasSubject()
    ensures var state := StateOf(SysAt(s, steps, k), execution);
            var account, target := state.accountId.value, state.targetPlan.value;
            && BillingHolds(SysAt(s, steps, i1).world, account, target)
            && CrmHolds(SysAt(s, steps, i2).world, account, target)
            && PortalHolds(SysAt(s, steps, i3).world, account, target)
            && (Undisturbed(s, steps, i1, i3, account) ==> AllHold(SysAt(s, steps, i3).world, account, target))
  {
    hide SysAt, Nodes.ShippedRun, Nodes.StateAt, Nodes.Standing, RowsOk, LogOk, GatesOk, Undisturbed;
    hide BillingHolds, CrmHolds, PortalHolds;
    ReachableInv(s, steps, k);
    var now := SysAt(s, steps, k);
    var run := now.runs[execution];
    Nodes.CompletedMeansVerified(now.policy, run);
    Nodes.SubjectAtTheEnd(now.policy, run);
    var v := |run| - 3;
    i := VisitHappened(s, steps, k, execution, v);
    NextSys(s, steps, i);
    ReachableInv(s, steps, i);
    Nodes.StatePrefix(run[..v], run[v..], v);
    assert run[..v] + run[v..] == run;
    i1, i2, i3 := AllReadAt(s, steps, i, execution);
    var account, target := StateOf(now, execution).accountId.value, StateOf(now, execution).targetPlan.value;
    assert SysAt(s, steps, i).reading[execution] == AllRead(Some((target, "active")), Some(target), Some(target));
    SubjectThen(s, steps, i1, i1, i, execution);
    SubjectThen(s, steps, i1, i2, i, execution);
    SubjectThen(s, steps, i1, i3, i, execution);
    ReadsHold(s, steps, i1, i2, i3, execution, target);
    if Undisturbed(s, steps, i1, i3, account) {
      UndisturbedHolds(s, steps, i1, i3, i3, account, target);
      UndisturbedHolds(s, steps, i1, i2, i3, account, target);
    }
  }

  /** A run that stays put keeps its subject. */
  lemma SubjectThen(s: Sys, steps: seq<Step>, i: nat, m: nat, k: nat, execution: nat)
    requires i <= m <= k <= |steps| && StaysPut(s, steps, i, k, execution)
    ensures Validates(SysAt(s, steps, m), execution) && Validates(SysAt(s, steps, k), execution)
    ensures StateOf(SysAt(s, steps, m), execution) == StateOf(SysAt(s, steps, k), execution)
  {
    hide SysAt, Nodes.StateAt, Nodes.Standing;
  }

  lemma ReadsHold(s: Sys, steps: seq<Step>, i1: nat, i2: nat, i3: nat, execution: nat, target: string)
    requires Trace(s, steps) && i1 < i2 < i3 < |steps|
    requires forall m :: m in {i1, i2, i3} ==> Validates(SysAt(s, steps, m), execution)
    requires AccountOf(SysAt(s, steps, i2), execution) == AccountOf(SysAt(s, steps, i1), execution)
             == AccountOf(SysAt(s, steps, i3), execution)
    requires steps[i1] == ReadBilling(execution, Some((target, "active")))
             && steps[i3] == ReadTier(execution, Some(target))
    requires CrmAnswer(SysAt(s, steps, i2).world, AccountOf(SysAt(s, steps, i2), execution)) == Some(target)
    ensures var account := AccountOf(SysAt(s, steps, i1), execution);
            && BillingHolds(SysAt(s, steps, i1).world, account, target)
            && CrmHolds(SysAt(s, steps, i2).world, account, target)
            && PortalHolds(SysAt(s, steps, i3).world, account, target)
  {
    hide SysAt, Nodes.StateAt, Nodes.Standing;
    NextSys(s, steps, i1);
    NextSys(s, steps, i3);
  }
}
