/** When a human must decide: the approval policy's triggers for a proposed action. Amounts are cents. */
module Thresholds {
  import opened Common

  datatype Action =
    | SubscriptionUpgrade | SubscriptionDowngrade | SubscriptionCancel | ApplyDiscount | IssueRefund
    | UpdateCrm | SendNotification
    | Unrecognised(name: string)

  datatype Trigger =
    | UnknownAction | DestructiveAction | DiscountAboveThreshold | RefundAboveThreshold
    | ChargeAboveThreshold | ContractTermsAmbiguous | LowConfidence | PolicyException

  datatype ApprovalPolicy = ApprovalPolicy(
    discountPercentThreshold: real, refundThreshold: int, chargeThreshold: int, minimumConfidence: real)

  const DEFAULT_POLICY := ApprovalPolicy(20.0, 100_000, 1_000_000, 0.70)

  datatype Request = Request(
    action: Action, amount: Option<int>, discountPercent: Option<real>, confidence: Option<real>,
    contractTermsAmbiguous: bool, policyException: bool)

  /** What makes each trigger fire. */
  predicate Fires(t: Trigger, r: Request, p: ApprovalPolicy) {
    match t
    case UnknownAction => r.action.Unrecognised?
    case DestructiveAction => r.action == SubscriptionCancel || r.action == SubscriptionDowngrade
    case DiscountAboveThreshold => r.discountPercent.Some? && r.discountPercent.value > p.discountPercentThreshold
    case RefundAboveThreshold => r.amount.Some? && r.action == IssueRefund && r.amount.value > p.refundThreshold
    case ChargeAboveThreshold =>
      r.amount.Some? && r.amount.value > p.chargeThreshold
      && !(r.action == IssueRefund && r.amount.value > p.refundThreshold)
    case ContractTermsAmbiguous => r.contractTermsAmbiguous
    case LowConfidence => r.confidence.Some? && r.confidence.value < p.minimumConfidence
    case PolicyException => r.policyException
  }

  /** The order in which triggers are looked at. */
  function Nth(k: nat): Trigger {
    if k == 0 then UnknownAction else if k == 1 then DestructiveAction else if k == 2 then DiscountAboveThreshold
    else if k == 3 then RefundAboveThreshold else if k == 4 then ChargeAboveThreshold
    else if k == 5 then ContractTermsAmbiguous else if k == 6 then LowConfidence else PolicyException
  }

  /** Those of the first `k` triggers that fire, in order. */
  function FirstTriggers(k: nat, r: Request, p: ApprovalPolicy): seq<Trigger> {
    if k == 0 then []
    else if Fires(Nth(k - 1), r, p) then FirstTriggers(k - 1, r, p) + [Nth(k - 1)]
    else FirstTriggers(k - 1, r, p)
  }

  /** Every trigger that fires, in order. */
  function Triggers(r: Request, p: ApprovalPolicy): seq<Trigger> {
    FirstTriggers(8, r, p)
  }

  predicate Required(r: Request, p: ApprovalPolicy) {
    Triggers(r, p) != []
  }

  /** The place of a trigger in that order: every trigger has one. */
  function Place(t: Trigger): (k: nat)
    ensures k < 8 && Nth(k) == t
  {
    match t
    case UnknownAction => 0 case DestructiveAction => 1 case DiscountAboveThreshold => 2
    case RefundAboveThreshold => 3 case ChargeAboveThreshold => 4 case ContractTermsAmbiguous => 5
    case LowConfidence => 6 case PolicyException => 7
  }

  lemma {:induction false} FirstTriggersFire(k: nat, t: Trigger, r: Request, p: ApprovalPolicy)
    requires k <= 8
    ensures t in FirstTriggers(k, r, p) <==> Fires(t, r, p) && Place(t) < k
  {
    if k > 0 {
      FirstTriggersFire(k - 1, t, r, p);
      assert Nth(k - 1) == t <==> Place(t) == k - 1;
    }
  }

  /** A human is required exactly when some trigger fires, and every trigger that fires is reported. */
  lemma RequiredIffTriggered(r: Request, p: ApprovalPolicy)
    ensures forall t :: t in Triggers(r, p) <==> Fires(t, r, p)
    ensures Required(r, p) <==> exists t :: Fires(t, r, p)
  {
    hide FirstTriggers;
    forall t ensures t in Triggers(r, p) <==> Fires(t, r, p) {
      FirstTriggersFire(8, t, r, p);
    }
    if Required(r, p) { assert Triggers(r, p)[0] in Triggers(r, p); }
  }

  lemma NextTrigger(k: nat, r: Request, p: ApprovalPolicy)
    ensures FirstTriggers(k + 1, r, p)
            == if Fires(Nth(k), r, p) then FirstTriggers(k, r, p) + [Nth(k)] else FirstTriggers(k, r, p)
    ensures FirstTriggers(0, r, p) == []
  {
  }

  /** Collect the triggers branch by branch. */
  method RequiresApproval(r: Request, p: ApprovalPolicy) returns (triggers: seq<Trigger>)
    ensures triggers == Triggers(r, p)
  {
    hide FirstTriggers;
    triggers := [];
    NextTrigger(0, r, p);
    if r.action.Unrecognised? {
      triggers := triggers + [UnknownAction];
    }
    NextTrigger(1, r, p);
    if r.action == SubscriptionCancel || r.action == SubscriptionDowngrade {
      triggers := triggers + [DestructiveAction];
    }
    NextTrigger(2, r, p);
    if r.discountPercent.Some? && r.discountPercent.value > p.discountPercentThreshold {
      triggers := triggers + [DiscountAboveThreshold];
    }
    NextTrigger(3, r, p);
    NextTrigger(4, r, p);
    if r.amount.Some? {
      if r.action == IssueRefund && r.amount.value > p.refundThreshold {
        triggers := triggers + [RefundAboveThreshold];
      } else if r.amount.value > p.chargeThreshold {
        triggers := triggers + [ChargeAboveThreshold];
      }
    }
    NextTrigger(5, r, p);
    if r.contractTermsAmbiguous {
      triggers := triggers + [ContractTermsAmbiguous];
    }
    NextTrigger(6, r, p);
    if r.confidence.Some? && r.confidence.value < p.minimumConfidence {
      triggers := triggers + [LowConfidence];
    }
    NextTrigger(7, r, p);
    if r.policyException {
      triggers := triggers + [PolicyException];
    }
  }

  /**
   Nothing a model supplies removes a requirement: adding a confidence, lowering it, or raising the
   amount keeps every approval that was already required.
   */
  lemma ApprovalOnlyAdded(r: Request, r': Request, p: ApprovalPolicy)
    requires r'.action == r.action && r'.discountPercent == r.discountPercent
    requires r'.contractTermsAmbiguous == r.contractTermsAmbiguous && r'.policyException == r.policyException
    requires r.amount.Some? ==> r'.amount.Some? && r'.amount.value >= r.amount.value
    requires r.confidence.Some? ==> r'.confidence.Some? && r'.confidence.value <= r.confidence.value
    requires Required(r, p)
    ensures Required(r', p)
  {
    RequiredIffTriggered(r, p);
    RequiredIffTriggered(r', p);
    var t :| Fires(t, r, p);
    if t == ChargeAboveThreshold {
      assert Fires(ChargeAboveThreshold, r', p) || Fires(RefundAboveThreshold, r', p);
    } else {
      assert Fires(t, r', p);
    }
  }


  /** One trigger, if it is to be listed. */
  function Listed(on: bool, t: Trigger): seq<Trigger> {
    if on then [t] else []
  }

  lemma OneMoreListed(k: nat, r: Request, p: ApprovalPolicy)
    ensures FirstTriggers(k + 1, r, p) == FirstTriggers(k, r, p) + Listed(Fires(Nth(k), r, p), Nth(k))
    ensures FirstTriggers(1, r, p) == Listed(Fires(UnknownAction, r, p), UnknownAction)
  {
  }

  /** The triggers, said outright: which conditions put them on the list, and in which order. */
  lemma TriggersAre(r: Request, p: ApprovalPolicy)
    ensures var refund := r.action == IssueRefund && r.amount.Some? && r.amount.value > p.refundThreshold;
            Triggers(r, p) ==
            Listed(r.action.Unrecognised?, UnknownAction)
            + Listed(r.action == SubscriptionCancel || r.action == SubscriptionDowngrade, DestructiveAction)
            + Listed(r.discountPercent.Some? && r.discountPercent.value > p.discountPercentThreshold,
                     DiscountAboveThreshold)
            + Listed(refund, RefundAboveThreshold)
            + Listed(!refund && r.amount.Some? && r.amount.value > p.chargeThreshold, ChargeAboveThreshold)
            + Listed(r.contractTermsAmbiguous, ContractTermsAmbiguous)
            + Listed(r.confidence.Some? && r.confidence.value < p.minimumConfidence, LowConfidence)
            + Listed(r.policyException, PolicyException)
  {
    hide FirstTriggers, Listed;
    OneMoreListed(1, r, p);
    OneMoreListed(2, r, p);
    OneMoreListed(3, r, p);
    OneMoreListed(4, r, p);
    OneMoreListed(5, r, p);
    OneMoreListed(6, r, p);
    OneMoreListed(7, r, p);
  }

  /** The limits of the default policy: 20 percent, 1,000.00 refunded, 10,000.00 charged, a confidence of 0.70. */
  lemma DefaultLimits(r: Request)
    requires !r.action.Unrecognised? && r.action !in {SubscriptionCancel, SubscriptionDowngrade}
    requires !r.contractTermsAmbiguous && !r.policyException
    ensures Required(r, DEFAULT_POLICY) <==>
            || (r.discountPercent.Some? && r.discountPercent.value > 20.0)
            || (r.amount.Some? && r.amount.value > if r.action == IssueRefund then 100_000 else 1_000_000)
            || (r.confidence.Some? && r.confidence.value < 0.70)
  {
    RequiredIffTriggered(r, DEFAULT_POLICY);
    if r.discountPercent.Some? && r.discountPercent.value > 20.0 {
      assert Fires(DiscountAboveThreshold, r, DEFAULT_POLICY);
    }
    if r.amount.Some? && r.amount.value > if r.action == IssueRefund then 100_000 else 1_000_000 {
      assert Fires(RefundAboveThreshold, r, DEFAULT_POLICY) || Fires(ChargeAboveThreshold, r, DEFAULT_POLICY);
    }
    if r.confidence.Some? && r.confidence.value < 0.70 { assert Fires(LowConfidence, r, DEFAULT_POLICY); }
  }
}
