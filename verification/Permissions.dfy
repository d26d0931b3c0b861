/** Which caller may invoke which tool, as one table; an undeclared tool is denied. */
module Permissions {
  import opened Common

  datatype Role =
    | Supervisor | Planner | Research | Execution | Validator | BillingSpecialist | Admin
    | OtherRole(name: string)

  datatype Tool =
    | GetCustomer | GetSubscription | UpdateSubscription | GetContract | GetPricing | GetInvoice | CreateRefund
    | GetSupportHistory | UpdateCrm | SearchKnowledge | SendNotification | UpdateEntitlement | GetEntitlement
    | Undeclared(name: string)

  datatype ToolPolicy = ToolPolicy(mutating: bool, allowedRoles: set<Role>, approvalAction: string)

  const READERS := {Supervisor, Research, Execution, Validator, Admin}
  const WRITERS := {Execution, Admin}

  datatype PermissionError = UnknownTool | PermissionDenied

  function GetPolicy(tool: Tool): Option<ToolPolicy> {
    match tool
    case GetCustomer => Some(ToolPolicy(false, READERS, ""))
    case GetSubscription => Some(ToolPolicy(false, READERS + {BillingSpecialist}, ""))
    case GetContract => Some(ToolPolicy(false, READERS + {BillingSpecialist}, ""))
    case GetPricing => Some(ToolPolicy(false, READERS + {BillingSpecialist}, ""))
    case GetInvoice => Some(ToolPolicy(false, READERS + {BillingSpecialist}, ""))
    case GetSupportHistory => Some(ToolPolicy(false, READERS, ""))
    case SearchKnowledge => Some(ToolPolicy(false, READERS + {Planner}, ""))
    case GetEntitlement => Some(ToolPolicy(false, READERS, ""))
    case UpdateSubscription => Some(ToolPolicy(true, WRITERS, "subscription_upgrade"))
    case UpdateCrm => Some(ToolPolicy(true, WRITERS, "update_crm"))
    case UpdateEntitlement => Some(ToolPolicy(true, WRITERS, "subscription_upgrade"))
    case CreateRefund => Some(ToolPolicy(true, WRITERS, "issue_refund"))
    case SendNotification => Some(ToolPolicy(true, WRITERS, "send_notification"))
    case Undeclared(_) => None
  }

  function CheckPermission(role: Role, tool: Tool): Result<ToolPolicy, PermissionError> {
    match GetPolicy(tool)
    case None => Err(UnknownTool)
    case Some(policy) => if role in policy.allowedRoles then Ok(policy) else Err(PermissionDenied)
  }

  /** Only execution and administrators ever hold a mutating tool; in particular the specialist never does. */
  lemma MutatingToolsAreNarrow(role: Role, tool: Tool)
    requires CheckPermission(role, tool).Ok? && CheckPermission(role, tool).value.mutating
    ensures role == Execution || role == Admin
    ensures CheckPermission(role, tool).value.approvalAction != ""
  {
  }

  /** The tools that change a system of record. */
  predicate Mutates(tool: Tool) {
    tool in {UpdateSubscription, UpdateCrm, UpdateEntitlement, CreateRefund, SendNotification}
  }

  /** The table read by role: who may call what, and which calls need an approval. */
  lemma ToolsOfRole(role: Role, tool: Tool)
    ensures var may := CheckPermission(role, tool).Ok?;
            match role
            case Execution => may <==> !tool.Undeclared?
            case Admin => may <==> !tool.Undeclared?
            case Supervisor => may <==> !tool.Undeclared? && !Mutates(tool)
            case Research => may <==> !tool.Undeclared? && !Mutates(tool)
            case Validator => may <==> !tool.Undeclared? && !Mutates(tool)
            case BillingSpecialist => may <==> tool in {GetSubscription, GetContract, GetPricing, GetInvoice}
            case Planner => may <==> tool == SearchKnowledge
            case OtherRole(_) => !may
    ensures CheckPermission(role, tool) == Err(UnknownTool) <==> tool.Undeclared?
    ensures CheckPermission(role, tool).Ok? ==> (CheckPermission(role, tool).value.mutating <==> Mutates(tool))
  {
  }
}
