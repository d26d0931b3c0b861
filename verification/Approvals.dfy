/** The approval record, and the rules on who may decide it, when, and for how long it stays usable. */
module Approvals {
  import opened Common

  datatype ApprovalStatus = Pending | Approved | Rejected | Expired | Cancelled

  /** What an approval is about, or what a mutation targets: a kind and an identifier. */
  datatype Entity = Entity(kind: string, ident: nat)

  /** An approval row. Amounts are cents, instants are microseconds. */
  datatype Approval = Approval(
    executionId: nat, action: string, entity: Entity, status: ApprovalStatus, amount: Option<int>,
    requestedAt: int, decidedAt: Option<int>, decidedBy: Option<nat>, consumedAt: Option<int>)

  datatype AuthorityPolicy = AuthorityPolicy(
    approverRoles: set<string>, elevatedRoles: set<string>, elevatedThreshold: int, validityHours: int)

  const DEFAULT_AUTHORITY :=
    AuthorityPolicy({"approver", "finance_approver", "admin"}, {"finance_approver", "admin"}, 1_000_000, 24)

  const MICROS_PER_HOUR := 3_600_000_000

  datatype User = User(isActive: bool, roles: set<string>)

  datatype AuthorityDenial = ActorNotFound | ActorInactive | NoApprovalRole | ElevatedRoleRequired

  datatype DecidabilityDenial = AlreadyConsumed | AlreadyDecided | NotPending

  function NeedsElevated(amount: Option<int>, policy: AuthorityPolicy): bool {
    amount.Some? && amount.value > policy.elevatedThreshold
  }

  /** None when the actor may decide this amount, otherwise the first reason why not. */
  function CheckAuthority(actor: Option<User>, amount: Option<int>, policy: AuthorityPolicy): Option<AuthorityDenial> {
    if actor.None? then Some(ActorNotFound)
    else if !actor.value.isActive then Some(ActorInactive)
    else if actor.value.roles * policy.approverRoles == {} then Some(NoApprovalRole)
    else if NeedsElevated(amount, policy) && actor.value.roles * policy.elevatedRoles == {} then
      Some(ElevatedRoleRequired)
    else None
  }

  /** None when the row still awaits its one decision, otherwise the reason why not. */
  function CheckDecidable(status: ApprovalStatus, consumedAt: Option<int>): Option<DecidabilityDenial> {
    if consumedAt.Some? then Some(AlreadyConsumed)
    else if status == Approved || status == Rejected then Some(AlreadyDecided)
    else if status != Pending then Some(NotPending)
    else None
  }

  predicate IsStale(decidedAt: Option<int>, now: int, policy: AuthorityPolicy) {
    decidedAt.None? || now - decidedAt.value > policy.validityHours * MICROS_PER_HOUR
  }

  /** An actor with authority over this amount, said outright. */
  ghost predicate HasAuthority(actor: User, amount: Option<int>, policy: AuthorityPolicy) {
    && actor.isActive
    && (exists r :: r in actor.roles && r in policy.approverRoles)
    && (amount.Some? && amount.value > policy.elevatedThreshold ==>
        exists r :: r in actor.roles && r in policy.elevatedRoles)
  }

  /** The check permits exactly the actors with authority, and only pending unconsumed rows are decidable. */
  lemma PermittedIffAuthorised(actor: Option<User>, amount: Option<int>, policy: AuthorityPolicy)
    ensures CheckAuthority(actor, amount, policy).None? <==> actor.Some? && HasAuthority(actor.value, amount, policy)
  {
    if actor.Some? {
      Shares(actor.value.roles, policy.approverRoles);
      Shares(actor.value.roles, policy.elevatedRoles);
    }
  }

  lemma Shares(mine: set<string>, theirs: set<string>)
    ensures mine * theirs != {} <==> exists r :: r in mine && r in theirs
  {
    if r :| r in mine && r in theirs { assert r in mine * theirs; }
  }

  /** An actor who may decide an amount may decide every smaller one, and more roles never take authority away. */
  lemma AuthorityIsMonotone(actor: User, actor': User, amount: Option<int>, amount': Option<int>,
                            policy: AuthorityPolicy)
    requires CheckAuthority(Some(actor), amount, policy).None?
    requires actor'.isActive && actor.roles <= actor'.roles
    requires amount'.Some? ==> amount.Some? && amount'.value <= amount.value
    ensures CheckAuthority(Some(actor'), amount', policy).None?
  {
    PermittedIffAuthorised(Some(actor), amount, policy);
    PermittedIffAuthorised(Some(actor'), amount', policy);
  }

  // ---- The decision endpoint --------------------------------------------------------------------------

  datatype DecisionReply =
    | NoSuchApproval | NotDecidable(why: DecidabilityDenial) | NotPermitted(whyNot: AuthorityDenial) | Recorded

  function Lookup<K, V>(m: map<K, V>, k: K): Option<V> {
    if k in m then Some(m[k]) else None
  }

  /** Decidability first, so that a second approver learns the accurate reason; then authority. */
  function ReviewDecision(approvals: map<nat, Approval>, users: map<nat, User>, row: nat, user: nat,
                          policy: AuthorityPolicy)
    : DecisionReply
  {
    if row !in approvals then NoSuchApproval
    else
      match CheckDecidable(approvals[row].status, approvals[row].consumedAt)
      case Some(why) => NotDecidable(why)
      case None =>
        match CheckAuthority(Lookup(users, user), approvals[row].amount, policy)
        case Some(why) => NotPermitted(why)
        case None => Recorded
  }

  /** The row after a recorded decision: the verdict, the actor and the instant. */
  function DecidedRow(a: Approval, user: nat, approved: bool, now: int): Approval {
    a.(status := if approved then Approved else Rejected, decidedAt := Some(now), decidedBy := Some(user))
  }

  /** A decision is recorded exactly on a pending, unspent row, by an active user with authority over its amount. */
  lemma RecordedIff(approvals: map<nat, Approval>, users: map<nat, User>, row: nat, user: nat, policy: AuthorityPolicy)
    ensures ReviewDecision(approvals, users, row, user, policy) == Recorded
            <==> row in approvals && approvals[row].status == Pending && approvals[row].consumedAt.None?
                 && user in users && HasAuthority(users[user], approvals[row].amount, policy)
  {
    if row in approvals {
      PermittedIffAuthorised(Lookup(users, user), approvals[row].amount, policy);
    }
  }

  /** Decided once: whoever tries again, and with whatever roles, is told the row is already decided. */
  lemma NoSecondDecision(approvals: map<nat, Approval>, users: map<nat, User>, row: nat, user: nat, user': nat,
                         approved: bool, now: int, policy: AuthorityPolicy)
    requires ReviewDecision(approvals, users, row, user, policy) == Recorded
    ensures ReviewDecision(approvals[row := DecidedRow(approvals[row], user, approved, now)], users, row, user', policy)
            == NotDecidable(AlreadyDecided)
  {
  }


  /** What the endpoint answers, and in which order it looks: the row, its state, then the actor. */
  lemma RepliesSayWhy(approvals: map<nat, Approval>, users: map<nat, User>, row: nat, user: nat,
                      policy: AuthorityPolicy)
    ensures var reply := ReviewDecision(approvals, users, row, user, policy);
            if row !in approvals then reply == NoSuchApproval
            else
              var a := approvals[row];
              if a.consumedAt.Some? then reply == NotDecidable(AlreadyConsumed)
              else if a.status in {Approved, Rejected} then reply == NotDecidable(AlreadyDecided)
              else if a.status in {Expired, Cancelled} then reply == NotDecidable(NotPending)
              else if user !in users then reply == NotPermitted(ActorNotFound)
              else if !users[user].isActive then reply == NotPermitted(ActorInactive)
              else if forall r :: r in users[user].roles ==> r !in policy.approverRoles
                then reply == NotPermitted(NoApprovalRole)
              else if a.amount.Some? && a.amount.value > policy.elevatedThreshold
                      && forall r :: r in users[user].roles ==> r !in policy.elevatedRoles
                then reply == NotPermitted(ElevatedRoleRequired)
              else reply == Recorded
  {
    if user in users {
      Shares(users[user].roles, policy.approverRoles);
      Shares(users[user].roles, policy.elevatedRoles);
    }
  }

  /** Who may decide under the default policy: 10,000.00 is the most an approver may decide alone. */
  lemma DefaultAuthority(actor: User, amount: Option<int>)
    ensures HasAuthority(actor, amount, DEFAULT_AUTHORITY)
            <==> && actor.isActive
                 && ("approver" in actor.roles || "finance_approver" in actor.roles || "admin" in actor.roles)
                 && (amount.Some? && amount.value > 1_000_000 ==>
                       "finance_approver" in actor.roles || "admin" in actor.roles)
  {
    hide NeedsElevated;
    ApproverRoles();
    if HasAuthority(actor, amount, DEFAULT_AUTHORITY) {
      var r :| r in actor.roles && r in DEFAULT_AUTHORITY.approverRoles;
      if amount.Some? && amount.value > 1_000_000 {
        var e :| e in actor.roles && e in DEFAULT_AUTHORITY.elevatedRoles;
      }
    }
  }

  lemma ApproverRoles()
    ensures "approver" in DEFAULT_AUTHORITY.approverRoles && "finance_approver" in DEFAULT_AUTHORITY.approverRoles
            && "admin" in DEFAULT_AUTHORITY.approverRoles && "finance_approver" in DEFAULT_AUTHORITY.elevatedRoles
            && "admin" in DEFAULT_AUTHORITY.elevatedRoles && DEFAULT_AUTHORITY.elevatedThreshold == 1_000_000
  {
  }
}
