/** Whether an account may move to a higher plan, from plain facts. Instants are microseconds. */
module Eligibility {
  import opened Common
  import Pricing

  datatype Blocker =
    | CustomerNotActive | AccountNotActive | SubscriptionNotActive | NotAnUpgrade | TargetPlanInactive
    | OutstandingPastDueInvoices | ContractNotActive | ContractTermLocked

  datatype ApprovalCode = ContractRequiresCustomerApproval | ContractTermsAreAmbiguous

  datatype Warning = ContractEndingSoon | SubscriptionSetToCancel | OpenUrgentTickets

  datatype Restriction = Unrestricted | TermLocked | RequiresCustomerApproval | AmbiguousTerms

  datatype Contract = Contract(status: string, endsAt: Option<int>, restriction: Restriction)

  datatype UpgradeContext = UpgradeContext(
    customerStatus: string, accountStatus: string, subscriptionStatus: string, cancelAtPeriodEnd: bool,
    currentPlanRank: int, targetPlanRank: int, targetPlanIsActive: bool, now: int,
    contract: Option<Contract>, pastDueInvoices: int, openUrgentTickets: int, endingSoonDays: int)

  datatype EligibilityResult =
    EligibilityResult(blockers: seq<Blocker>, approvals: seq<ApprovalCode>, warnings: seq<Warning>)

  /** What makes each blocker hold. */
  predicate Blocks(b: Blocker, c: UpgradeContext) {
    match b
    case CustomerNotActive => c.customerStatus != "active"
    case AccountNotActive => c.accountStatus != "active"
    case SubscriptionNotActive => c.subscriptionStatus != "active"
    case NotAnUpgrade => c.targetPlanRank <= c.currentPlanRank
    case TargetPlanInactive => !c.targetPlanIsActive
    case OutstandingPastDueInvoices => c.pastDueInvoices > 0
    case ContractNotActive => c.contract.Some? && c.contract.value.status != "active"
    case ContractTermLocked => c.contract.Some? && c.contract.value.restriction == TermLocked
  }

  /** The order in which blockers are looked at; the contract comes last. */
  function Nth(k: nat): Blocker {
    if k == 0 then CustomerNotActive else if k == 1 then AccountNotActive else if k == 2 then SubscriptionNotActive
    else if k == 3 then NotAnUpgrade else if k == 4 then TargetPlanInactive
    else if k == 5 then OutstandingPastDueInvoices else if k == 6 then ContractNotActive else ContractTermLocked
  }

  /** Those of the first `k` blockers that hold, in order. */
  function FirstBlockers(k: nat, c: UpgradeContext): seq<Blocker> {
    if k == 0 then []
    else if Blocks(Nth(k - 1), c) then FirstBlockers(k - 1, c) + [Nth(k - 1)]
    else FirstBlockers(k - 1, c)
  }

  lemma NextBlocker(k: nat, c: UpgradeContext)
    ensures FirstBlockers(k + 1, c)
            == if Blocks(Nth(k), c) then FirstBlockers(k, c) + [Nth(k)] else FirstBlockers(k, c)
    ensures FirstBlockers(0, c) == []
  {
  }

  /** Every blocker that holds, in order. */
  function Blockers(c: UpgradeContext): seq<Blocker> {
    FirstBlockers(8, c)
  }

  function Approvals(c: UpgradeContext): seq<ApprovalCode> {
    if c.contract.None? then []
    else
      match c.contract.value.restriction
      case RequiresCustomerApproval => [ContractRequiresCustomerApproval]
      case AmbiguousTerms => [ContractTermsAreAmbiguous]
      case _ => []
  }

  predicate Warns(w: Warning, c: UpgradeContext) {
    match w
    case ContractEndingSoon =>
      && c.contract.Some? && c.contract.value.endsAt.Some?
      && 0 <= Pricing.Days(c.contract.value.endsAt.value - c.now) <= c.endingSoonDays
    case SubscriptionSetToCancel => c.cancelAtPeriodEnd
    case OpenUrgentTickets => c.openUrgentTickets > 0
  }

  function WarningIf(w: Warning, c: UpgradeContext): seq<Warning> {
    if Warns(w, c) then [w] else []
  }

  function Warnings(c: UpgradeContext): seq<Warning> {
    WarningIf(ContractEndingSoon, c) + WarningIf(SubscriptionSetToCancel, c) + WarningIf(OpenUrgentTickets, c)
  }

  /** The place of a blocker in that order: every blocker has one. */
  function Place(b: Blocker): (k: nat)
    ensures k < 8 && Nth(k) == b
  {
    match b
    case CustomerNotActive => 0 case AccountNotActive => 1 case SubscriptionNotActive => 2 case NotAnUpgrade => 3
    case TargetPlanInactive => 4 case OutstandingPastDueInvoices => 5 case ContractNotActive => 6
    case ContractTermLocked => 7
  }

  lemma {:induction false} FirstBlockersBlock(k: nat, b: Blocker, c: UpgradeContext)
    requires k <= 8
    ensures b in FirstBlockers(k, c) <==> Blocks(b, c) && Place(b) < k
  {
    if k > 0 {
      FirstBlockersBlock(k - 1, b, c);
      assert Nth(k - 1) == b <==> Place(b) == k - 1;
    }
  }

  /** No short-circuit: exactly the blockers that hold are reported, so eligible means that none holds. */
  lemma EligibleIffNothingBlocks(c: UpgradeContext)
    ensures forall b :: b in Blockers(c) <==> Blocks(b, c)
    ensures Blockers(c) == [] <==> forall b :: !Blocks(b, c)
  {
    hide FirstBlockers;
    forall b ensures b in Blockers(c) <==> Blocks(b, c) {
      FirstBlockersBlock(8, b, c);
    }
    if Blockers(c) != [] { assert Blockers(c)[0] in Blockers(c); }
  }

  method CheckUpgradeEligibility(c: UpgradeContext) returns (r: EligibilityResult)
    ensures r == EligibilityResult(Blockers(c), Approvals(c), Warnings(c))
  {
    hide FirstBlockers;
    var blockers, approvals, warnings := [], [], [];
    NextBlocker(0, c);
    if c.customerStatus != "active" {
      blockers := blockers + [CustomerNotActive];
    }
    assert blockers == FirstBlockers(1, c);
    NextBlocker(1, c);
    if c.accountStatus != "active" {
      blockers := blockers + [AccountNotActive];
    }
    assert blockers == FirstBlockers(2, c);
    NextBlocker(2, c);
    if c.subscriptionStatus != "active" {
      blockers := blockers + [SubscriptionNotActive];
    }
    assert blockers == FirstBlockers(3, c);
    NextBlocker(3, c);
    if c.targetPlanRank <= c.currentPlanRank {
      blockers := blockers + [NotAnUpgrade];
    }
    assert blockers == FirstBlockers(4, c);
    NextBlocker(4, c);
    if !c.targetPlanIsActive {
      blockers := blockers + [TargetPlanInactive];
    }
    assert blockers == FirstBlockers(5, c);
    NextBlocker(5, c);
    if c.pastDueInvoices > 0 {
      blockers := blockers + [OutstandingPastDueInvoices];
    }
    assert blockers == FirstBlockers(6, c);
    blockers, approvals, warnings := EvaluateContract(c, blockers, approvals, warnings);
    if c.cancelAtPeriodEnd {
      warnings := warnings + [SubscriptionSetToCancel];
    }
    if c.openUrgentTickets > 0 {
      warnings := warnings + [OpenUrgentTickets];
    }
    r := EligibilityResult(blockers, approvals, warnings);
  }

  /** Add the contract's findings to the three lists. */
  method EvaluateContract(c: UpgradeContext, blockers: seq<Blocker>, approvals: seq<ApprovalCode>,
                          warnings: seq<Warning>)
    returns (blockers': seq<Blocker>, approvals': seq<ApprovalCode>, warnings': seq<Warning>)
    ensures blockers' == blockers + (if Blocks(ContractNotActive, c) then [ContractNotActive] else [])
                         + (if Blocks(ContractTermLocked, c) then [ContractTermLocked] else [])
    ensures blockers == FirstBlockers(6, c) ==> blockers' == Blockers(c)
    ensures approvals' == approvals + Approvals(c)
    ensures warnings' == warnings + WarningIf(ContractEndingSoon, c)
  {
    NextBlocker(6, c);
    NextBlocker(7, c);
    blockers', approvals', warnings' := blockers, approvals, warnings;
    if c.contract.None? {
      return;
    }
    var contract := c.contract.value;
    if contract.status != "active" {
      blockers' := blockers' + [ContractNotActive];
    }
    if contract.restriction == TermLocked {
      blockers' := blockers' + [ContractTermLocked];
    } else if contract.restriction == RequiresCustomerApproval {
      approvals' := approvals' + [ContractRequiresCustomerApproval];
    } else if contract.restriction == AmbiguousTerms {
      approvals' := approvals' + [ContractTermsAreAmbiguous];
    }
    if contract.endsAt.Some? {
      var daysRemaining := Pricing.Days(contract.endsAt.value - c.now);
      if 0 <= daysRemaining <= c.endingSoonDays {
        warnings' := warnings' + [ContractEndingSoon];
      }
    }
  }


  /** One blocker, if it is to be listed. */
  function Listed(on: bool, b: Blocker): seq<Blocker> {
    if on then [b] else []
  }

  lemma OneMoreListed(k: nat, c: UpgradeContext)
    ensures FirstBlockers(k + 1, c) == FirstBlockers(k, c) + Listed(Blocks(Nth(k), c), Nth(k))
    ensures FirstBlockers(1, c) == Listed(Blocks(CustomerNotActive, c), CustomerNotActive)
  {
  }

  /** The blockers, said outright: which conditions put them on the list, and in which order. */
  lemma BlockersAre(c: UpgradeContext)
    ensures Blockers(c) ==
            Listed(c.customerStatus != "active", CustomerNotActive)
            + Listed(c.accountStatus != "active", AccountNotActive)
            + Listed(c.subscriptionStatus != "active", SubscriptionNotActive)
            + Listed(c.targetPlanRank <= c.currentPlanRank, NotAnUpgrade)
            + Listed(!c.targetPlanIsActive, TargetPlanInactive)
            + Listed(c.pastDueInvoices > 0, OutstandingPastDueInvoices)
            + Listed(c.contract.Some? && c.contract.value.status != "active", ContractNotActive)
            + Listed(c.contract.Some? && c.contract.value.restriction == TermLocked, ContractTermLocked)
  {
    hide FirstBlockers, Listed;
    OneMoreListed(1, c);
    OneMoreListed(2, c);
    OneMoreListed(3, c);
    OneMoreListed(4, c);
    OneMoreListed(5, c);
    OneMoreListed(6, c);
    OneMoreListed(7, c);
  }

  /** What does not block: the findings a human has to deal with, and the warnings, the contract's end in whole days. */
  lemma OtherFindingsAre(c: UpgradeContext)
    ensures Approvals(c) ==
            if c.contract.Some? && c.contract.value.restriction == RequiresCustomerApproval
            then [ContractRequiresCustomerApproval]
            else if c.contract.Some? && c.contract.value.restriction == AmbiguousTerms then [ContractTermsAreAmbiguous]
            else []
    ensures ContractEndingSoon in Warnings(c) <==>
            c.contract.Some? && c.contract.value.endsAt.Some?
            && c.now <= c.contract.value.endsAt.value < c.now + (c.endingSoonDays + 1) * 86_400_000_000
    ensures SubscriptionSetToCancel in Warnings(c) <==> c.cancelAtPeriodEnd
    ensures OpenUrgentTickets in Warnings(c) <==> c.openUrgentTickets > 0
  {
  }
}
