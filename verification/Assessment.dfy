/**
 The local assessment of an upgrade, the Billing Specialist's second reading of the same records through
 a narrower role, and the decide node that combines them.
 */
module Assessment {
  import opened Common
  import opened State
  import Pricing
  import Eligibility
  import Thresholds

  datatype Plan = Plan(code: string, rank: int, monthlyPrice: real, annualPrice: real, isActive: bool)

  datatype Subscription = Subscription(
    status: string, annual: bool, seats: int, periodStart: int, periodEnd: int, cancelAtPeriodEnd: bool, plan: Plan)

  datatype Standing = Standing(customerStatus: string, accountStatus: string, openUrgentTickets: int)

  /** What the systems of record hold about one account and one target plan. */
  datatype Records = Records(
    standing: Option<Standing>, target: Option<Plan>, subscription: Option<Subscription>,
    contract: Option<Eligibility.Contract>, pastDueInvoices: int, discountPercent: Option<real>)

  datatype Assessed = Assessed(blockers: seq<Eligibility.Blocker>, amountDue: int, triggers: seq<Thresholds.Trigger>)

  datatype AssessmentError =
    | AccountNotFound | TargetPlanNotFound | NoActiveSubscription
    | Unpriceable(error: Pricing.PricingError)

  const ENDING_SOON_DAYS := 60

  function UnitPrice(plan: Plan, annual: bool): real {
    if annual then plan.annualPrice else plan.monthlyPrice
  }

  function PricePlanChange(sub: Subscription, target: Plan, now: int): Result<Pricing.Proration, Pricing.PricingError> {
    Pricing.CalculateProration(Pricing.ProrationInput(
      UnitPrice(sub.plan, sub.annual), UnitPrice(target, sub.annual), sub.seats, sub.periodStart, sub.periodEnd, now))
  }

  predicate Ambiguous(contract: Option<Eligibility.Contract>) {
    contract.Some? && contract.value.restriction == Eligibility.AmbiguousTerms
  }

  function LocalContext(standing: Standing, r: Records, now: int): Eligibility.UpgradeContext
    requires r.target.Some? && r.subscription.Some?
  {
    var sub := r.subscription.value;
    Eligibility.UpgradeContext(
      standing.customerStatus, standing.accountStatus, sub.status, sub.cancelAtPeriodEnd,
      sub.plan.rank, r.target.value.rank, r.target.value.isActive, now, r.contract, r.pastDueInvoices,
      standing.openUrgentTickets, ENDING_SOON_DAYS)
  }

  function LocalRequest(r: Records, amount: int): Thresholds.Request {
    Thresholds.Request(Thresholds.SubscriptionUpgrade, Some(amount), r.discountPercent, None, Ambiguous(r.contract),
                       false)
  }

  /** Gather the facts, apply the rules. */
  function AssessUpgrade(r: Records, now: int, policy: Thresholds.ApprovalPolicy): Result<Assessed, AssessmentError> {
    if r.standing.None? then Err(AccountNotFound)
    else if r.target.None? then Err(TargetPlanNotFound)
    else if r.subscription.None? then Err(NoActiveSubscription)
    else
      match PricePlanChange(r.subscription.value, r.target.value, now)
      case Err(e) => Err(Unpriceable(e))
      case Ok(proration) =>
        Ok(Assessed(
          Eligibility.Blockers(LocalContext(r.standing.value, r, now)),
          proration.amountDue,
          Thresholds.Triggers(LocalRequest(r, proration.amountDue), policy)))
  }

  // ---- The specialist ----------------------------------------------------------------------------------

  datatype Recommendation = Recommendation(
    amountDue: int, billingBlockers: seq<Eligibility.Blocker>, approvalIndicated: bool,
    approvalTriggers: seq<Thresholds.Trigger>)

  /** What came back from a consultation. A refusal and an unreachable specialist carry no recommendation. */
  datatype Consult = Consulted(recommendation: Recommendation) | Refused | Unavailable

  /** Standing, tickets and the cancel flag are outside the specialist's role; it reads the neutral value. */
  const UNOBSERVED := Standing("active", "active", 0)

  function SpecialistContext(r: Records, now: int): Eligibility.UpgradeContext
    requires r.target.Some? && r.subscription.Some?
  {
    LocalContext(UNOBSERVED, r, now).(cancelAtPeriodEnd := false)
  }

  function SpecialistRequest(r: Records, amount: int): Thresholds.Request {
    LocalRequest(r, amount).(discountPercent := None)
  }

  /** The specialist's recomputation: the same rules over what its role can read, under the default policy. */
  function PriceUpgrade(r: Records, now: int): Consult {
    if r.target.None? || r.subscription.None? then Refused
    else
      match PricePlanChange(r.subscription.value, r.target.value, now)
      case Err(_) => Refused
      case Ok(proration) =>
        var triggers := Thresholds.Triggers(SpecialistRequest(r, proration.amountDue), Thresholds.DEFAULT_POLICY);
        Consulted(Recommendation(
          proration.amountDue, Eligibility.Blockers(SpecialistContext(r, now)), triggers != [], triggers))
  }

  /** Whether the specialist's figure agrees with the local one, and whether it diverges. */
  function Corroborates(consult: Consult, localAmount: int): (bool, bool) {
    match consult
    case Consulted(rec) => (rec.amountDue == localAmount, rec.amountDue != localAmount)
    case _ => (false, false)
  }

  // ---- The decide node ------------------------------------------------------------------------------------

  function EscalateUpdate(): Update {
    NO_UPDATE.(status := Some(Escalated), errors := [WorkflowError("decide", "invalid_input", false)])
  }

  function NeedsApproval(assessed: Assessed, consult: Consult): bool {
    assessed.triggers != []
    || (consult.Consulted? && consult.recommendation.approvalIndicated)
    || Corroborates(consult, assessed.amountDue).1
  }

  /** Pricing errors are not assessment errors: they escape the node, which then returns no update. */
  predicate Raises(assessment: Result<Assessed, AssessmentError>) {
    assessment.Err? && assessment.error.Unpriceable?
  }

  /** The decide node's update, from what it assessed and what the specialist answered. */
  function DecideUpdate(s: State, assessment: Result<Assessed, AssessmentError>, consult: Consult): Update
    requires !Raises(assessment)
  {
    if !s.HasSubject() then EscalateUpdate()
    else
      match assessment
      case Err(_) =>
        NO_UPDATE.(status := Some(Escalated), approvalStatus := Some(NotRequired),
                   errors := [WorkflowError("decide", "assessment_error", false)])
      case Ok(assessed) =>
        if assessed.blockers != [] then NO_UPDATE.(status := Some(Escalated))
        else
          var needed := NeedsApproval(assessed, consult);
          NO_UPDATE.(
            approvalStatus := Some(if needed then Required else NotRequired),
            status := Some(if needed then AwaitingApproval else Executing),
            metadata := Some(s.metadata.(prorationAmount := Some(assessed.amountDue))))
  }

  /** The decision refused the request: nothing after it may execute. */
  predicate DecisionRefused(s: State, assessment: Result<Assessed, AssessmentError>) {
    !s.HasSubject() || assessment.Err? || assessment.value.blockers != []
  }

  /**
   Whatever the specialist answers, the amount is the local one, a refusal stays a refusal, and an
   approval the local rules ask for is still asked for.
   */
  lemma SpecialistOnlyRaisesTheBar(s: State, assessment: Result<Assessed, AssessmentError>, consult: Consult)
    requires !Raises(assessment)
    ensures var alone := DecideUpdate(s, assessment, Unavailable);
            var consulted := DecideUpdate(s, assessment, consult);
            && consulted.metadata == alone.metadata
            && (alone.metadata.Some? ==> alone.metadata.value.prorationAmount == Some(assessment.value.amountDue))
            && (DecisionRefused(s, assessment) ==> consulted == alone)
            && (alone.approvalStatus == Some(Required) ==> consulted == alone)
            && (alone.status == Some(Escalated) <==> consulted.status == Some(Escalated))
            && (DecisionRefused(s, assessment) <==> consulted.status == Some(Escalated))
  {
  }

  /**
   A contract that requires the customer's approval is reported by the eligibility rules, but the finding
   reaches neither the assessment nor the decision: both are the same as for an unrestricted contract.
   */
  lemma CustomerApprovalFindingIsNotFed(r: Records, contract: Eligibility.Contract, now: int,
                                        policy: Thresholds.ApprovalPolicy)
    requires contract.restriction == Eligibility.RequiresCustomerApproval
    ensures AssessUpgrade(r.(contract := Some(contract)), now, policy)
            == AssessUpgrade(r.(contract := Some(contract.(restriction := Eligibility.Unrestricted))), now, policy)
    ensures r.standing.Some? && r.target.Some? && r.subscription.Some? ==>
            Eligibility.Approvals(LocalContext(r.standing.value, r.(contract := Some(contract)), now)) != []
  {
    hide Pricing.CalculateProration;
    if r.standing.Some? && r.target.Some? && r.subscription.Some? {
      var r1 := r.(contract := Some(contract));
      var r2 := r.(contract := Some(contract.(restriction := Eligibility.Unrestricted)));
      SameBlockers(8, LocalContext(r.standing.value, r1, now), LocalContext(r.standing.value, r2, now));
    }
  }

  lemma {:induction false} SameBlockers(k: nat, c: Eligibility.UpgradeContext, c': Eligibility.UpgradeContext)
    requires forall b :: Eligibility.Blocks(b, c) == Eligibility.Blocks(b, c')
    ensures Eligibility.FirstBlockers(k, c) == Eligibility.FirstBlockers(k, c')
  {
    if k > 0 { SameBlockers(k - 1, c, c'); }
  }

  // ---- The assessment and the decision, said outright -----------------------------------------------------

  /** The price of a plan change: the plans' prices for the billing cycle, the seats, the period, and now. */
  function PriceInput(r: Records, now: int): Pricing.ProrationInput
    requires r.target.Some? && r.subscription.Some?
  {
    var sub, target := r.subscription.value, r.target.value;
    Pricing.ProrationInput(
      if sub.annual then sub.plan.annualPrice else sub.plan.monthlyPrice,
      if sub.annual then target.annualPrice else target.monthlyPrice,
      sub.seats, sub.periodStart, sub.periodEnd, now)
  }

  /** What keeps the upgrade from going ahead, read off the records. */
  ghost predicate Prevents(b: Eligibility.Blocker, r: Records)
    requires r.standing.Some? && r.target.Some? && r.subscription.Some?
  {
    var sub := r.subscription.value;
    match b
    case CustomerNotActive => r.standing.value.customerStatus != "active"
    case AccountNotActive => r.standing.value.accountStatus != "active"
    case SubscriptionNotActive => sub.status != "active"
    case NotAnUpgrade => r.target.value.rank <= sub.plan.rank
    case TargetPlanInactive => !r.target.value.isActive
    case OutstandingPastDueInvoices => r.pastDueInvoices > 0
    case ContractNotActive => r.contract.Some? && r.contract.value.status != "active"
    case ContractTermLocked => r.contract.Some? && r.contract.value.restriction == Eligibility.TermLocked
  }

  /**
   What an assessment says of the records: what is missing, in the order it is looked for; or the price of the
   change for the billing cycle, exactly the conditions that prevent it, and a human exactly for a discount or a
   charge above its limit or for a contract whose terms are ambiguous.
   */
  lemma AssessmentSays(r: Records, now: int, policy: Thresholds.ApprovalPolicy)
    ensures var a := AssessUpgrade(r, now, policy);
            if r.standing.None? then a == Err(AccountNotFound)
            else if r.target.None? then a == Err(TargetPlanNotFound)
            else if r.subscription.None? then a == Err(NoActiveSubscription)
            else
              var priced := Pricing.CalculateProration(PriceInput(r, now));
              if priced.Err? then a == Err(Unpriceable(priced.error))
              else
                && a.Ok? && a.value.amountDue == priced.value.amountDue
                && (forall b :: b in a.value.blockers <==> Prevents(b, r))
                && (forall t :: t in a.value.triggers <==>
                      || (t == Thresholds.DiscountAboveThreshold && r.discountPercent.Some?
                          && r.discountPercent.value > policy.discountPercentThreshold)
                      || (t == Thresholds.ChargeAboveThreshold && priced.value.amountDue > policy.chargeThreshold)
                      || (t == Thresholds.ContractTermsAmbiguous && r.contract.Some?
                          && r.contract.value.restriction == Eligibility.AmbiguousTerms))
  {
    hide Pricing.CalculateProration, Eligibility.Blockers, Thresholds.Triggers;
    if r.standing.Some? && r.target.Some? && r.subscription.Some? {
      Eligibility.EligibleIffNothingBlocks(LocalContext(r.standing.value, r, now));
      var a := AssessUpgrade(r, now, policy);
      if a.Ok? { Thresholds.RequiredIffTriggered(LocalRequest(r, a.value.amountDue), policy); }
    }
  }

  /**
   What the decide node makes of it: no subject, a failed assessment or a blocker escalates; otherwise the price is
   put on the state, and a human is needed exactly when a trigger fired, the specialist asks for one, or the
   specialist's amount is not the local one.
   */
  lemma DecisionSays(s: State, assessment: Result<Assessed, AssessmentError>, consult: Consult)
    requires !Raises(assessment)
    ensures var u := DecideUpdate(s, assessment, consult);
            if s.accountId.None? || s.targetPlan.None? || s.targetPlan.value == "" || assessment.Err?
            then u.status == Some(Escalated) && u.metadata.None? && u.errors != [] && !u.errors[0].retryable
            else if assessment.value.blockers != []
            then u == NO_UPDATE.(status := Some(Escalated))
            else
              && u.errors == []
              && u.metadata == Some(Metadata(s.metadata.evidenceSufficient, Some(assessment.value.amountDue)))
              && (if assessment.value.triggers != []
                     || (consult.Consulted? && consult.recommendation.approvalIndicated)
                     || (consult.Consulted? && consult.recommendation.amountDue != assessment.value.amountDue)
                  then u.approvalStatus == Some(Required) && u.status == Some(AwaitingApproval)
                  else u.approvalStatus == Some(NotRequired) && u.status == Some(Executing))
  {
  }

  /** A contract's end is warned of from 60 days before it on. */
  lemma EndIsWarnedOf(standing: Standing, r: Records, now: int)
    requires r.target.Some? && r.subscription.Some?
    ensures Eligibility.ContractEndingSoon in Eligibility.Warnings(LocalContext(standing, r, now)) <==>
            r.contract.Some? && r.contract.value.endsAt.Some?
            && now <= r.contract.value.endsAt.value < now + 61 * 86_400_000_000
  {
    Eligibility.OtherFindingsAre(LocalContext(standing, r, now));
  }

  // ---- An honest specialist ---------------------------------------------------------------------------------

  /** What the specialist says: the same price, the blockers its role can see, and the two triggers it can see. */
  lemma SpecialistSays(r: Records, now: int)
    ensures if r.target.None? || r.subscription.None? then PriceUpgrade(r, now) == Refused
            else
              var priced := Pricing.CalculateProration(PriceInput(r, now));
              if priced.Err? then PriceUpgrade(r, now) == Refused
              else
                && PriceUpgrade(r, now).Consulted?
                && var said := PriceUpgrade(r, now).recommendation;
                   && said.amountDue == priced.value.amountDue
                   && (said.approvalIndicated <==> said.approvalTriggers != [])
                   && (forall b :: b in said.billingBlockers <==>
                         b !in {Eligibility.CustomerNotActive, Eligibility.AccountNotActive}
                         && Prevents(b, r.(standing := Some(UNOBSERVED))))
                   && (forall t :: t in said.approvalTriggers <==>
                         || (t == Thresholds.ChargeAboveThreshold && priced.value.amountDue > 1_000_000)
                         || (t == Thresholds.ContractTermsAmbiguous && r.contract.Some?
                             && r.contract.value.restriction == Eligibility.AmbiguousTerms))
  {
    hide Pricing.CalculateProration, Eligibility.Blockers, Thresholds.Triggers;
    if r.target.Some? && r.subscription.Some? && PriceUpgrade(r, now).Consulted? {
      Eligibility.EligibleIffNothingBlocks(SpecialistContext(r, now));
      Thresholds.RequiredIffTriggered(SpecialistRequest(r, PriceUpgrade(r, now).recommendation.amountDue),
                                      Thresholds.DEFAULT_POLICY);
    }
  }

  /** Reading the same records at the same instant, the specialist reports nothing the local assessment lacks. */
  lemma SpecialistSeesASubset(r: Records, now: int, policy: Thresholds.ApprovalPolicy)
    requires AssessUpgrade(r, now, policy).Ok?
    requires policy.chargeThreshold <= Thresholds.DEFAULT_POLICY.chargeThreshold
    ensures PriceUpgrade(r, now).Consulted?
    ensures var local, remote := AssessUpgrade(r, now, policy).value, PriceUpgrade(r, now).recommendation;
            && remote.amountDue == local.amountDue
            && (forall b :: b in remote.billingBlockers ==> b in local.blockers)
            && (forall t :: t in remote.approvalTriggers ==> t in local.triggers)
  {
    hide Pricing.CalculateProration;
    var local, remote := AssessUpgrade(r, now, policy).value, PriceUpgrade(r, now).recommendation;
    Eligibility.EligibleIffNothingBlocks(LocalContext(r.standing.value, r, now));
    Eligibility.EligibleIffNothingBlocks(SpecialistContext(r, now));
    forall b | b in remote.billingBlockers ensures b in local.blockers {
      assert Eligibility.Blocks(b, SpecialistContext(r, now));
      assert Eligibility.Blocks(b, LocalContext(r.standing.value, r, now));
    }
    var mine, theirs := LocalRequest(r, local.amountDue), SpecialistRequest(r, local.amountDue);
    Thresholds.RequiredIffTriggered(mine, policy);
    Thresholds.RequiredIffTriggered(theirs, Thresholds.DEFAULT_POLICY);
    forall t | t in remote.approvalTriggers ensures t in local.triggers {
      assert Thresholds.Fires(t, theirs, Thresholds.DEFAULT_POLICY);
      assert Thresholds.Fires(t, mine, policy);
    }
  }

  /** Consulting the specialist about these records would change the decision. */
  ghost predicate ConsultingMatters(s: State, r: Records, now: int, policy: Thresholds.ApprovalPolicy) {
    !Raises(AssessUpgrade(r, now, policy)) &&
    DecideUpdate(s, AssessUpgrade(r, now, policy), PriceUpgrade(r, now))
    != DecideUpdate(s, AssessUpgrade(r, now, policy), Unavailable)
  }

  lemma HonestSpecialistChangesNothing(s: State, r: Records, now: int, policy: Thresholds.ApprovalPolicy)
    requires policy.chargeThreshold <= Thresholds.DEFAULT_POLICY.chargeThreshold
    ensures !ConsultingMatters(s, r, now, policy)
  {
    hide Pricing.CalculateProration;
    if AssessUpgrade(r, now, policy).Ok? {
      SpecialistSeesASubset(r, now, policy);
      var remote := PriceUpgrade(r, now).recommendation;
      if remote.approvalTriggers != [] { assert remote.approvalTriggers[0] in remote.approvalTriggers; }
    }
  }

  /**
   An account on the `current` plan whose upgrade to `target` costs exactly `cents`: a free plan, one seat and a
   whole day ahead, no contract, nothing past due, and perhaps a negotiated discount.
   */
  function Offer(current: string, target: string, cents: nat, discount: Option<real>): Records {
    Records(
      Some(UNOBSERVED),
      Some(Plan(target, 1, cents as real / 100.0, 0.0, true)),
      Some(Subscription("active", false, 1, 0, Pricing.MICROS_PER_DAY, false, Plan(current, 0, 0.0, 0.0, true))),
      None, 0, discount)
  }

  lemma OfferCosts(current: string, target: string, cents: nat, discount: Option<real>)
    requires cents < 1_000_000_000
    ensures var r := Offer(current, target, cents, discount);
            var p := PricePlanChange(r.subscription.value, r.target.value, 0);
            p.Ok? && p.value.amountDue == cents
  {
    hide Pricing.Line;
    var data := Pricing.ProrationInput(0.0, cents as real / 100.0, 1, 0, Pricing.MICROS_PER_DAY, 0);
    Pricing.SchemaValuesArePriced(data, 0, cents);
    Pricing.DueIsDifference(data);
    Pricing.FullPeriodLine(0.0, 0, 1, 1);
    Pricing.FullPeriodLine(cents as real / 100.0, cents, 1, 1);
  }

  /** Such an upgrade is eligible; a human is asked for exactly when the amount or the discount is over its limit. */
  lemma OfferIsAssessed(current: string, target: string, cents: nat, discount: Option<real>,
                        policy: Thresholds.ApprovalPolicy)
    requires cents < 1_000_000_000
    ensures var a := AssessUpgrade(Offer(current, target, cents, discount), 0, policy);
            && a.Ok? && a.value.blockers == [] && a.value.amountDue == cents
            && (a.value.triggers == [] <==>
                  cents <= policy.chargeThreshold
                  && (discount.Some? ==> discount.value <= policy.discountPercentThreshold))
  {
    hide Pricing.CalculateProration, Eligibility.Blockers, Thresholds.Triggers;
    var r := Offer(current, target, cents, discount);
    OfferCosts(current, target, cents, discount);
    Eligibility.EligibleIffNothingBlocks(LocalContext(UNOBSERVED, r, 0));
    var mine := LocalRequest(r, cents);
    Thresholds.RequiredIffTriggered(mine, policy);
    if cents > policy.chargeThreshold {
      assert Thresholds.Fires(Thresholds.ChargeAboveThreshold, mine, policy);
    } else if discount.Some? && discount.value > policy.discountPercentThreshold {
      assert Thresholds.Fires(Thresholds.DiscountAboveThreshold, mine, policy);
    } else {
      assert forall t :: !Thresholds.Fires(t, mine, policy);
    }
  }

  /** With a laxer local policy the specialist's default policy does change some decision. */
  lemma SpecialistRaisesAtHigherThresholds(s: State, policy: Thresholds.ApprovalPolicy)
    requires s.HasSubject() && policy.chargeThreshold > Thresholds.DEFAULT_POLICY.chargeThreshold
    ensures ConsultingMatters(s, Offer("current", "target", 1_000_001, None), 0, policy)
  {
    hide Pricing.CalculateProration, Eligibility.Blockers, Thresholds.Triggers;
    var r := Offer("current", "target", 1_000_001, None);
    OfferCosts("current", "target", 1_000_001, None);
    OfferIsAssessed("current", "target", 1_000_001, None, policy);
    var theirs := SpecialistRequest(r, 1_000_001);
    Thresholds.RequiredIffTriggered(theirs, Thresholds.DEFAULT_POLICY);
    assert Thresholds.Fires(Thresholds.ChargeAboveThreshold, theirs, Thresholds.DEFAULT_POLICY);
  }

  /**
   Consulting an honest specialist never changes a decision exactly when the local charge threshold is
   not above the default one the specialist applies.
   */
  lemma ConsultingNeverMattersIff(s: State, policy: Thresholds.ApprovalPolicy)
    requires s.HasSubject()
    ensures (forall r, now :: !ConsultingMatters(s, r, now, policy))
            <==> policy.chargeThreshold <= Thresholds.DEFAULT_POLICY.chargeThreshold
  {
    if policy.chargeThreshold <= Thresholds.DEFAULT_POLICY.chargeThreshold {
      forall r, now ensures !ConsultingMatters(s, r, now, policy) {
        HonestSpecialistChangesNothing(s, r, now, policy);
      }
    } else {
      SpecialistRaisesAtHigherThresholds(s, policy);
    }
  }
}
