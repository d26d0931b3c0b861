/** Comparing intent with what each system of record says after execution. */
module Validation {
  import opened Common
  import opened State
  import opened Routing

  datatype Money = Money(cents: int, text: string)

  /** What the systems said. None means the system could not be read, or was not consulted. */
  datatype Observed = Observed(
    billingPlan: Option<string>, billingStatus: Option<string>, crmPlan: Option<string>,
    entitlementTier: Option<string>, invoiceAmountDue: Option<Money>)

  datatype Expected = Expected(planCode: string, subscriptionStatus: string, proration: Option<Money>)

  function Compare(check: Check, system: System, expected: string, actual: Option<string>): ValidationResult {
    match actual
    case None => ValidationResult(check, system, NeedsReview, expected, None)
    case Some(a) => ValidationResult(check, system, if a == expected then Pass else Fail, expected, actual)
  }

  function StatusCheck(e: Expected, o: Observed): seq<ValidationResult> {
    if o.billingStatus.None? then []
    else [Compare(SubscriptionStatus, Billing, e.subscriptionStatus, o.billingStatus)]
  }

  function ProrationCheck(e: Expected, o: Observed): seq<ValidationResult> {
    match (e.proration, o.invoiceAmountDue)
    case (Some(want), Some(got)) =>
      var verdict := if got.cents == want.cents then Pass else Fail;
      [ValidationResult(ProrationAmount, Billing, verdict, want.text, Some(got.text))]
    case _ => []
  }

  /** One result per system, in the order they are consulted. */
  function Checks(e: Expected, o: Observed): seq<ValidationResult> {
    [Compare(SubscriptionPlan, Billing, e.planCode, o.billingPlan)]
    + StatusCheck(e, o)
    + [Compare(CrmPlanReference, Crm, e.planCode, o.crmPlan)]
    + [Compare(EntitlementTier, Provisioning, e.planCode, o.entitlementTier)]
    + ProrationCheck(e, o)
  }

  method ValidateUpgrade(e: Expected, o: Observed) returns (results: seq<ValidationResult>)
    ensures results == Checks(e, o)
  {
    ghost var plan := [Compare(SubscriptionPlan, Billing, e.planCode, o.billingPlan)];
    ghost var crm := [Compare(CrmPlanReference, Crm, e.planCode, o.crmPlan)];
    ghost var tier := [Compare(EntitlementTier, Provisioning, e.planCode, o.entitlementTier)];
    results := [];
    if o.billingPlan.None? {
      results := results + [ValidationResult(SubscriptionPlan, Billing, NeedsReview, e.planCode, None)];
    } else {
      results := results + [ValidationResult(SubscriptionPlan, Billing,
        if o.billingPlan.value == e.planCode then Pass else Fail, e.planCode, o.billingPlan)];
    }
    assert results == plan;
    if o.billingStatus.Some? {
      results := results + [ValidationResult(SubscriptionStatus, Billing,
        if o.billingStatus.value == e.subscriptionStatus then Pass else Fail, e.subscriptionStatus, o.billingStatus)];
    }
    assert results == plan + StatusCheck(e, o);
    if o.crmPlan.None? {
      results := results + [ValidationResult(CrmPlanReference, Crm, NeedsReview, e.planCode, None)];
    } else {
      results := results + [ValidationResult(CrmPlanReference, Crm,
        if o.crmPlan.value == e.planCode then Pass else Fail, e.planCode, o.crmPlan)];
    }
    assert results == plan + StatusCheck(e, o) + crm;
    if o.entitlementTier.None? {
      results := results + [ValidationResult(EntitlementTier, Provisioning, NeedsReview, e.planCode, None)];
    } else {
      results := results + [ValidationResult(EntitlementTier, Provisioning,
        if o.entitlementTier.value == e.planCode then Pass else Fail, e.planCode, o.entitlementTier)];
    }
    assert results == plan + StatusCheck(e, o) + crm + tier;
    if e.proration.Some? && o.invoiceAmountDue.Some? {
      results := results + [ValidationResult(ProrationAmount, Billing,
        if o.invoiceAmountDue.value.cents == e.proration.value.cents then Pass else Fail,
        e.proration.value.text, Some(o.invoiceAmountDue.value.text))];
    }
  }

  /** FAIL beats NEEDS_REVIEW beats PASS; nothing checked is NEEDS_REVIEW. */
  function OverallVerdict(results: seq<ValidationResult>): Verdict {
    if results == [] then NeedsReview
    else if Fail in Verdicts(results) then Fail
    else if NeedsReview in Verdicts(results) then NeedsReview
    else Pass
  }

  /** Every system that was expected to agree was read and does agree. */
  ghost predicate Agrees(e: Expected, o: Observed) {
    && o.billingPlan == Some(e.planCode)
    && (o.billingStatus.Some? ==> o.billingStatus == Some(e.subscriptionStatus))
    && o.crmPlan == Some(e.planCode)
    && o.entitlementTier == Some(e.planCode)
    && (e.proration.Some? && o.invoiceAmountDue.Some? ==> e.proration.value.cents == o.invoiceAmountDue.value.cents)
  }

  /**
   The checks all pass exactly when every system agrees: an unreadable system never rounds up to agreement.
   The subscription status alone is not checked when it was not read.
   */
  lemma PassIffAgrees(e: Expected, o: Observed)
    ensures OverallVerdict(Checks(e, o)) == Pass <==> Agrees(e, o)
    ensures (forall r :: r in Checks(e, o) ==> r.verdict == Pass) <==> Agrees(e, o)
    ensures Checks(e, o) != []
  {
    var c := Checks(e, o);
    var plan := Compare(SubscriptionPlan, Billing, e.planCode, o.billingPlan);
    var crm := Compare(CrmPlanReference, Crm, e.planCode, o.crmPlan);
    var tier := Compare(EntitlementTier, Provisioning, e.planCode, o.entitlementTier);
    var status, proration := StatusCheck(e, o), ProrationCheck(e, o);
    assert forall r :: r in c <==> r == plan || r in status || r == crm || r == tier || r in proration;
    assert Agrees(e, o) <==> plan.verdict == Pass && crm.verdict == Pass && tier.verdict == Pass
                             && (forall r :: r in status ==> r.verdict == Pass)
                             && (forall r :: r in proration ==> r.verdict == Pass);
    VerdictsOf(c);
  }

  lemma VerdictsOf(results: seq<ValidationResult>)
    requires results != []
    ensures OverallVerdict(results) == Pass <==> forall r :: r in results ==> r.verdict == Pass
  {
    forall r | r in results ensures r.verdict in Verdicts(results) {}
    if forall r :: r in results ==> r.verdict == Pass {
      assert Fail !in Verdicts(results) && NeedsReview !in Verdicts(results);
    }
  }

  /** The systems with a check that failed; an unreadable system is not one of them. */
  function DivergentSystems(results: seq<ValidationResult>): set<System> {
    set r | r in results && r.verdict == Fail :: r.system
  }

  lemma ChecksAre(e: Expected, o: Observed)
    ensures forall r :: r in Checks(e, o) <==>
              || r == Compare(SubscriptionPlan, Billing, e.planCode, o.billingPlan)
              || r in StatusCheck(e, o)
              || r == Compare(CrmPlanReference, Crm, e.planCode, o.crmPlan)
              || r == Compare(EntitlementTier, Provisioning, e.planCode, o.entitlementTier)
              || r in ProrationCheck(e, o)
  {
  }

  predicate BillingDisagrees(e: Expected, o: Observed) {
    || (o.billingPlan.Some? && o.billingPlan.value != e.planCode)
    || (o.billingStatus.Some? && o.billingStatus.value != e.subscriptionStatus)
    || (e.proration.Some? && o.invoiceAmountDue.Some? && e.proration.value.cents != o.invoiceAmountDue.value.cents)
  }

  lemma BillingFails(e: Expected, o: Observed)
    ensures BillingDisagrees(e, o) <==>
            || Compare(SubscriptionPlan, Billing, e.planCode, o.billingPlan).verdict == Fail
            || (exists r :: r in StatusCheck(e, o) && r.verdict == Fail)
            || (exists r :: r in ProrationCheck(e, o) && r.verdict == Fail)
    ensures forall r :: r in StatusCheck(e, o) || r in ProrationCheck(e, o) ==>
              r.system == Billing && r.verdict != NeedsReview
  {
    if o.billingStatus.Some? { assert StatusCheck(e, o)[0] in StatusCheck(e, o); }
    if e.proration.Some? && o.invoiceAmountDue.Some? { assert ProrationCheck(e, o)[0] in ProrationCheck(e, o); }
  }

  /** The divergent systems are exactly those that were read and hold something else. */
  lemma DivergentMeans(e: Expected, o: Observed)
    ensures var d := DivergentSystems(Checks(e, o));
            && (Billing in d <==> BillingDisagrees(e, o))
            && (Crm in d <==> o.crmPlan.Some? && o.crmPlan.value != e.planCode)
            && (Provisioning in d <==> o.entitlementTier.Some? && o.entitlementTier.value != e.planCode)
  {
    hide Checks, StatusCheck, ProrationCheck, BillingDisagrees;
    ChecksAre(e, o);
    BillingFails(e, o);
    var crm := Compare(CrmPlanReference, Crm, e.planCode, o.crmPlan);
    var tier := Compare(EntitlementTier, Provisioning, e.planCode, o.entitlementTier);
    assert crm in Checks(e, o) && tier in Checks(e, o);
  }

  /** A failed verdict names its systems; a verdict that needs review names none, and means one could not be read. */
  lemma DivergentAndVerdict(e: Expected, o: Observed)
    ensures OverallVerdict(Checks(e, o)) == Fail <==> DivergentSystems(Checks(e, o)) != {}
    ensures OverallVerdict(Checks(e, o)) == NeedsReview <==>
            DivergentSystems(Checks(e, o)) == {} && (o.billingPlan.None? || o.crmPlan.None? || o.entitlementTier.None?)
  {
    hide Checks, StatusCheck, ProrationCheck;
    var c := Checks(e, o);
    ChecksAre(e, o);
    BillingFails(e, o);
    PassIffAgrees(e, o);
    forall r | r in c ensures r.verdict in Verdicts(c) && (r.verdict == Fail ==> r.system in DivergentSystems(c)) {}
    if DivergentSystems(c) != {} {
      var system :| system in DivergentSystems(c);
      var r :| r in c && r.verdict == Fail && r.system == system;
    }
  }
}
