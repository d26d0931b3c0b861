# Verification of the subscription-upgrade platform

A Dafny model of the platform that upgrades a customer's subscription through a workflow graph, human
approvals and approval-gated tools, with proofs of what the platform promises. `dafny verify dfyconfig.toml`
checks everything.

The model has three parts that meet at the approval row, and a set of algorithmic cores.

**The workflow.** `State` holds the accumulating state and its merge, `Budgets` and `Routing` the decisions on
the edges, `Graph` the topology with the two counter nodes. `Graph` knows nothing about the nodes: a visit may
return any update (updates have no counter fields), and termination is proved for all of them, with bounds that
are shown to be exact. `Nodes` adds the nodes that ship, as functions of the state and of whatever a visit read
from outside, and proves what a run may do: how it can complete, and what cleared each execution. `Validation`,
`Thresholds`, `Eligibility`, `Assessment` are the rules the nodes apply.

**The tool runtime and the approvals.** `Approvals` has the record and the authority rules, `Permissions` the
table. `Tools` states one tool call as a single all-or-nothing step. `Runtime` is the imperative runtime: a
`Session` whose rows are changed in place inside a savepoint, a `LegacyPortal` no savepoint covers, the execute
node's three calls, the gate's request and the decision endpoint; each method is proved against the one-step
specification.

**The whole system.** `Protocol` interleaves any number of runs, human decisions, resumed gates, direct tool
calls, clock ticks, changes of users and changes made by other systems, in any order. A ghost log records human
decisions and entered mutations. A resumed gate may read any row of its own execution, and the lookup of a row
may find any matching one, so the safety theorems do not depend on how a paused node is re-entered or on row order.
A decision rests on the records of its moment, an execute visit on the results of the calls it made since the run
came there, and a validation on three reads in three steps. `Completion` says what a completed workflow says about
the world, `Recovery` what stood behind an execution and a retry, and `Scenarios` tells two traces step by step.

**Algorithmic cores.** `Decimal` and `Pricing` (28-digit decimal arithmetic and proration), `Chunking` and
`Ingestion` (text windows and the content-addressed index over them), `Redaction`, `Disclosure` and `Timeline` (audit
payloads, what redaction withholds of them, and their merged order), `Evaluation` (the plan score) and `Runner`
(numbered steps across pauses).

## Conventions

Amounts of money are whole cents, scores are thousandths, instants are microseconds, identifiers are naturals.
Whole days of a span of time round down. `hide` statements in proofs only keep definitions away from the solver.

## Where the code differs from what is written about it

- A workflow whose decision needs no approval reaches EXECUTE, but has no approval row, so every mutating call is
  refused and nothing changes (`Protocol.AutomaticPathChangesNothing`); it completes only if others have
  moved each system to the target by the time it is read.
- A failed comparison is never answered by a retry, whatever the retry budget. A retry can only repeat an upgrade
  that was just read as agreeing everywhere, on the strength of an older failure and an older transient error
  (`Nodes.RetryIff`), of work a human had approved (`Recovery.RetryWasAuthorised`), and it does
  (`Scenarios.RetryHappens`). No run that retried or replanned can complete (`Nodes.CompletedShape`).
- COMPLETED does not mean that the three systems ever agreed at one moment: they are read one after the other
  (`Scenarios.CompletedWithoutACommonMoment`). Each held the target when it was read; a sufficient condition for all
  of them to have held it together, not a necessary one, is that nobody wrote to the account in between
  (`Completion.CompletedWasRead`).
- A contract that requires the customer's approval is found, but the finding is not fed to the approval policy
  (`Assessment.CustomerApprovalFindingIsNotFed`).
- The specialist applies the default approval policy, so it changes decisions exactly under a laxer local one
  (`Assessment.ConsultingNeverMattersIff`).
- Zero chunks written does not mean unchanged content: a blank new body replaces a document and is counted as
  unchanged (`Ingestion.ZeroWrittenIff`). A new title or scope with an unchanged body is not stored
  (`Ingestion.AgainIsANoOp`).
- The chunk overlap keeps short passages whole only for some parameters (`Chunking.OverlapWorksIff`); the defaults
  are among them.
- Redacting twice is not always the same as redacting once (`Redaction.IdempotentIffStable`), although payloads are
  redacted on the way in and again on the way out.
- All rounding of amounts is said to be explicit and to take halves up, but the arithmetic context rounds before: an
  exact half cent can be lost (`Pricing.HalfCentIsLost`). It suffices that the exact amount is not that close to a half
  cent for a line to be its cents (`Pricing.LineIsRoundedExactly`).
- A score of 1.0 can hide a missing node from 2000 planned nodes on (`Evaluation.PerfectMeansWholePlanIff`).

## Model

| member | source | states |
|---|---|---|
| Graph.RunsTerminate | src/custops/apps/orchestrator/graph.py:138-207 | Whatever the nodes return, a run makes at most 1 + (P+1)(6+3R) + P + 2 visits (the sharper MostVisits) and at most (P+1)(R+1) EXECUTE visits, although every replan gives the retry budget back |
| Graph.DefaultRunsTerminate | src/custops/agents/budgets.py:33-43 | With the default budgets a run makes at most 27 visits, at most 6 of them to EXECUTE |
| Graph.BoundsAreReached | src/custops/apps/orchestrator/graph.py:61-73 | For every budget policy some node behaviour makes exactly that many visits and EXECUTE visits: neither bound can be lowered |
| Graph.RunsNeverGetStuck | src/custops/apps/orchestrator/graph.py:138-207 | A run that is not at COMPLETE or ESCALATE always has a next visit, so runs stop only at the two ends |
| Graph.VisitsWithinPotential | src/custops/agents/budgets.py:51-88 | From any node and any state on the way, the visits and EXECUTE visits still to come are within a potential that each visit lowers |
| Graph.PotentialDrops | src/custops/apps/orchestrator/graph.py:168-207 | One visit spends the potential, whatever it returned: recovery passes through the two counter nodes, and a recorded failure is never forgotten |
| Graph.DirtyStays | src/custops/agents/state.py:147-153 | Lists accumulate, so a result that was not PASS is visible to every later visit |
| Routing.NotifyIffNothingButPass | src/custops/agents/routing.py:131-138 | NOTIFY follows validation exactly when something was recorded and nothing but PASS ever was |
| Routing.GoingOnNeeds | src/custops/agents/routing.py:51-121 | The four edges that look at one decision, said of the state: an upgrade request, evidence that is there and sufficient, no pending approval, a granted one |
| Nodes.ShippedRunsTerminate | src/custops/apps/orchestrator/graph.py:138-207 | The shipped nodes inherit the bound on every run |
| Nodes.CompletedMeansVerified | src/custops/agents/nodes.py:1056-1058 | A run ends COMPLETED exactly when it ends at the complete node, and then its one VALIDATE visit read the target from billing (active), the CRM and the portal alike; otherwise it ends ESCALATED |
| Nodes.FailureNeverCompletes | src/custops/agents/routing.py:131-153 | A run that ever recorded FAIL or NEEDS_REVIEW ends in ESCALATE |
| Nodes.CompletedShape | src/custops/apps/orchestrator/graph.py:138-207 | A run that completes took no retry and no replan: supervisor, planner, research, decide, at most one gate, execute, validate, notify, complete |
| Nodes.RequestRoutes | src/custops/agents/routing.py:51-60 | A request goes on to the planner exactly when it was classified as an upgrade |
| Nodes.ResearchRoutes | src/custops/agents/routing.py:63-77 | After a RESEARCH visit the run decides exactly when that visit found an account and its evidence was sufficient, and escalates otherwise |
| Nodes.ExecuteHadEvidence | src/custops/agents/routing.py:63-77 | Every EXECUTE visit rests on a RESEARCH visit of its own plan cycle that found sufficient evidence, right before the decision that cleared it, and acts on the account found there |
| Nodes.DecisionRoutes | src/custops/agents/nodes.py:450-600 | After a DECIDE visit the run escalates exactly when there was no subject, no assessment or a blocker; it goes to the gate exactly when a trigger fired, the specialist asked for a human or its amount is not the local one; else it executes |
| Nodes.GateRoutes | src/custops/agents/nodes.py:765-779 | The gate leads to EXECUTE exactly when the row it read is APPROVED, and to ESCALATE otherwise |
| Nodes.WorkRoutes | src/custops/apps/orchestrator/graph.py:168-207 | EXECUTE is always followed by VALIDATE, and the counter nodes lead back to EXECUTE and to the planner |
| Nodes.NotifyIff | src/custops/agents/routing.py:131-138 | NOTIFY follows a validation exactly when it and every validation before it read the target from billing (active), the CRM and the portal |
| Nodes.ReplanIff | src/custops/agents/routing.py:143-153 | A REPLAN follows a validation exactly when a failure and nothing unread is on record, it is not followed by a retry, and replans are left |
| Nodes.CountersCount | src/custops/apps/orchestrator/graph.py:61-73 | The two budget counters count the visits of the counter nodes, retries afresh after each replan |
| Nodes.SubjectIsLearned | src/custops/agents/nodes.py:400-420 | A run acts for the target its request named, on the account its last successful research found |
| Nodes.VisitsLeave | src/custops/agents/nodes.py:905-911 | What each visit adds to evidence, step results, approval and sufficiency, and that no other visit touches them |
| Nodes.StatusAfter | src/custops/agents/nodes.py:741-779 | How far a run says it is after each visit that decides it alone |
| Nodes.CleanValidateAgrees | src/custops/agents/nodes.py:967-1010 | A first validate visit that leaves nothing but PASS behind read all three systems and found the target everywhere |
| Nodes.RetryNeedsAReplan | src/custops/agents/routing.py:143-153 | The first retry of a run comes after a replan |
| Nodes.RetryIff | src/custops/agents/routing.py:131-166 | A validate visit is followed by a retry exactly when it read all three systems as agreeing, while an older comparison had failed with none left to review, the last error on record is an older, retryable one, and retries are left; a failed comparison never is |
| Nodes.RetryRepeatsWork | src/custops/agents/routing.py:143-166 | The EXECUTE visit a retry follows had its portal call let through: it succeeded as asked or failed in passing; refusals, a missing portal, a mismatch and a missing subscription are never followed by a retry |
| Nodes.TransientErrorsComeFromExecute | src/custops/agents/nodes.py:818-911 | Every retryable error on record is that of a call an earlier EXECUTE visit made: no other node ever reports one |
| Nodes.NoErrorIff | src/custops/agents/nodes.py:849-903 | A visit reports no error exactly when the portal is configured, all three calls succeeded and the portal confirmed what was asked; after a failed portal call its last error is retryable exactly when that failure was transient, and a missing portal or a mismatch never is |
| Nodes.StepsReport | src/custops/agents/nodes.py:849-903 | An EXECUTE visit reports how each step went and one error for each that failed, in order; a missing portal and a mismatch are failures of the last |
| Nodes.CodesAreTold | src/custops/mcp/tools/results.py:24-49 | No two error codes have one name, and exactly those of the systems upstream may be worth another try |
| Nodes.ValidateLeaves | src/custops/agents/nodes.py:967-1010 | A failed comparison leaves an error behind that is not retryable, an agreeing one leaves errors and failures as they were |
| Nodes.ValidateHasSubject | src/custops/agents/nodes.py:914-927 | No run reaches validation without an account and a target: the empty-handed branch is never taken |
| Nodes.ExecuteIsCleared | src/custops/agents/routing.py:80-121 | Every EXECUTE visit is cleared by a DECIDE of the same plan cycle that did not refuse and either needed no approval or was followed by a gate that read an APPROVED row |
| Nodes.DecideRoutes | src/custops/agents/nodes.py:450-507 | After a decision the run goes to the gate exactly when that decision needs approval, and anywhere but ESCALATE only when it did not refuse |
| Nodes.GateOpensOnApproved | src/custops/agents/nodes.py:765-779 | The gate leads to EXECUTE only on the APPROVED row it just read; a grant from an earlier cycle opens nothing |
| Nodes.RecoveryMeansDirty | src/custops/agents/routing.py:143-153 | RETRY and REPLAN are reached only after a recorded failure |
| Validation.ValidateUpgrade | src/custops/agents/validation.py:57-172 | The method appends, system by system, exactly the results of the comparison |
| Validation.PassIffAgrees | src/custops/agents/validation.py:175-190 | All checks pass exactly when every system was read and agrees; an unreadable system never counts as agreement |
| Validation.DivergentMeans | src/custops/agents/validation.py:193-195 | The divergent systems are exactly those that were read and hold something else |
| Validation.DivergentAndVerdict | src/custops/agents/validation.py:175-195 | FAIL names at least one system; NEEDS_REVIEW names none and means that one could not be read |
| Thresholds.RequiresApproval | src/custops/domain/policies/thresholds.py:99-169 | The branch-by-branch method returns exactly the triggers that fire, in order |
| Thresholds.RequiredIffTriggered | src/custops/domain/policies/thresholds.py:99-169 | Approval is required exactly when some trigger fires, and every trigger that fires is reported |
| Thresholds.TriggersAre | src/custops/domain/policies/thresholds.py:99-169 | The list of triggers, condition by condition and in order; a refund over its limit is not also a charge over its limit |
| Thresholds.DefaultLimits | src/custops/domain/policies/thresholds.py:64-76 | The default limits: 20 percent, 1,000.00 refunded, 10,000.00 charged, a confidence of 0.70, each strict |
| Thresholds.ApprovalOnlyAdded | src/custops/domain/policies/thresholds.py:99-169 | A confidence, a lower confidence or a larger amount never removes a requirement |
| Eligibility.CheckUpgradeEligibility | src/custops/domain/rules/eligibility.py:126-226 | The appending method returns exactly the findings that hold, in order, contract findings included |
| Eligibility.EvaluateContract | src/custops/domain/rules/eligibility.py:229-297 | The three lists grow by exactly the contract's findings |
| Eligibility.EligibleIffNothingBlocks | src/custops/domain/rules/eligibility.py:126-226 | Every condition that blocks is reported and nothing else; eligible means that none holds |
| Eligibility.BlockersAre | src/custops/domain/rules/eligibility.py:126-264 | The list of blockers, condition by condition and in order |
| Eligibility.OtherFindingsAre | src/custops/domain/rules/eligibility.py:206-297 | Which findings need a human and which only warn, the contract's end in whole days from now |
| Assessment.SpecialistOnlyRaisesTheBar | src/custops/agents/nodes.py:512-530 | For every specialist reply the amount is the local one, a refusal stays a refusal and a local approval requirement stays |
| Assessment.AssessmentSays | src/custops/apps/enterprise/assessment.py:92-178 | What an assessment says of the records: what is missing, in order; or the price for the billing cycle, exactly the conditions that prevent the upgrade, and a human exactly for a discount or charge above its limit or ambiguous contract terms |
| Assessment.DecisionSays | src/custops/agents/nodes.py:450-600 | What the decide node makes of it: a human exactly when a trigger fired, the specialist asks for one, or its amount differs from the local one |
| Assessment.SpecialistSays | src/custops/apps/billing_specialist/reasoning.py:124-173 | What the specialist reports of the same records: the same price, the blockers its role can see, the charge and contract triggers |
| Assessment.EndIsWarnedOf | src/custops/domain/rules/eligibility.py:286-297 | A contract's end is warned of from 60 days before it on |
| Assessment.SpecialistSeesASubset | src/custops/apps/billing_specialist/reasoning.py:124-173 | Reading the same records, the specialist computes the same amount and reports only blockers and triggers the local assessment also has |
| Assessment.HonestSpecialistChangesNothing | src/custops/agents/nodes.py:512-530 | With a local charge threshold not above the default, consulting an honest specialist leaves the decision unchanged |
| Assessment.ConsultingNeverMattersIff | src/custops/a2a/client/billing.py:226-245 | Consulting an honest specialist never changes any decision exactly when the local charge threshold is at most the default one it applies |
| Assessment.SpecialistRaisesAtHigherThresholds | src/custops/apps/billing_specialist/reasoning.py:159-173 | A concrete subscription whose decision the specialist's default policy changes under any laxer local policy |
| Assessment.CustomerApprovalFindingIsNotFed | src/custops/apps/enterprise/assessment.py:134-167 | The finding that a contract requires customer approval reaches neither assessment nor decision: they are those of an unrestricted contract |
| Pricing.ProrationConserves | src/custops/domain/rules/pricing.py:104-112 | Stepping through a middle plan costs the same to the cent as going directly, and going back refunds exactly what was due |
| Pricing.DueIsDifference | src/custops/domain/rules/pricing.py:107-112 | The total is exactly the difference of the two lines the invoice shows, neither of them negative |
| Pricing.LinesFollowTheDays | src/custops/domain/rules/pricing.py:69-112 | Each line is price times seats times whole days remaining over whole days of the period, to cents with halves up but for the context's rounding, the charge at the new and the credit at the current price; both are zero with no whole day remaining |
| Pricing.RefusedInputs | src/custops/domain/rules/pricing.py:84-102 | Which inputs are refused and with which complaint |
| Pricing.LineIsRoundedExactly | src/custops/domain/rules/pricing.py:25-27 | A line is the exact amount's cents, halves up, whenever that amount is not within the context's rounding of a half cent |
| Pricing.HalfCentIsLost | src/custops/domain/rules/pricing.py:104-108 | For 0.21 and 5 of 14 days the exact amount is 0.075 and the line 0.07: the context rounds before the halves go up |
| Pricing.LineMonotone | src/custops/domain/rules/pricing.py:104-108 | A line never falls when price, seats or days remaining rise, is never negative, and can be quantised whenever a larger one can |
| Pricing.LineWithinPrice | src/custops/domain/rules/pricing.py:104-108 | For whole-cent prices a line lies between zero and price times seats and is always representable |
| Pricing.FullPeriodLine | src/custops/domain/rules/pricing.py:104-108 | With the whole period ahead a line of whole-cent prices is exactly price times seats |
| Pricing.LineError | src/custops/domain/rules/pricing.py:25-27 | A line is within half a cent plus four half-units in the 28th digit of the exact rational amount |
| Pricing.DueFollowsPrice | src/custops/domain/rules/pricing.py:79-82 | A dearer plan never yields a negative amount, a cheaper one never a positive amount |
| Pricing.LaterNeverDearer | src/custops/domain/rules/pricing.py:100-112 | A later effective time never makes either line larger, and is priced whenever the earlier one was |
| Pricing.ClampsAreNoOps | src/custops/domain/rules/pricing.py:100-102 | Both day clamps do nothing on every input that is priced |
| Pricing.SchemaValuesArePriced | src/custops/domain/rules/pricing.py:84-112 | Every input with whole-cent prices, a seat and a day is priced, within the two full-period amounts |
| Pricing.DiscountOrder | src/custops/domain/rules/pricing.py:131-141 | A deeper discount never costs more; none leaves a whole-cent amount alone and a full one leaves nothing |
| Pricing.DiscountIs | src/custops/domain/rules/pricing.py:131-141 | What a discount leaves is the amount less its percentage, to cents with halves up, but for the context's rounding |
| Decimal.Round28Monotone | src/custops/domain/rules/pricing.py:104-108 | Rounding to 28 significant digits, halves to even, keeps the order of non-negative amounts |
| Decimal.Round28Error | src/custops/domain/rules/pricing.py:104-108 | The relative error of one context rounding is at most half a unit in the 28th digit |
| Decimal.Round28Is | src/custops/domain/rules/pricing.py:3-12 | One context rounding gives the nearest number of 28 digits, the even one of two |
| Decimal.HalvesGoUp | src/custops/domain/rules/pricing.py:25-27 | Quantising rounds halves away from zero, whatever the sign |
| Decimal.CentsAreExact | src/custops/domain/rules/pricing.py:21-27 | Whole cents of at most 28 digits are not changed by the context |
| Approvals.PermittedIffAuthorised | src/custops/domain/policies/approval_authority.py:93-129 | The check permits exactly active actors with an approving role, elevated above the threshold |
| Approvals.AuthorityIsMonotone | src/custops/domain/policies/approval_authority.py:93-129 | Authority over an amount extends to every smaller one and survives additional roles |
| Approvals.RecordedIff | src/custops/apps/api/routers/approvals.py:142-187 | A decision is recorded exactly on a pending, unspent row by an active user with authority over its amount |
| Approvals.NoSecondDecision | src/custops/domain/policies/approval_authority.py:132-157 | Once decided, every further attempt is told the row is already decided |
| Approvals.RepliesSayWhy | src/custops/apps/api/routers/approvals.py:142-187 | What the endpoint answers and in which order it looks: no row, consumed, decided, not pending, no such actor, inactive, no role, no elevated role |
| Approvals.DefaultAuthority | src/custops/domain/policies/approval_authority.py:58-77 | Who may decide under the default policy, up to 10,000.00 and above |
| Permissions.MutatingToolsAreNarrow | src/custops/mcp/permissions/matrix.py:99-195 | Only execution and administrators may call a mutating tool, and each such tool names the action to approve |
| Permissions.ToolsOfRole | src/custops/mcp/permissions/matrix.py:95-195 | The table read by role: who may call which tool, and which calls need an approval; an undeclared tool is denied |
| Tools.FailureChangesNothing | src/custops/mcp/tools/runtime.py:139-217 | On any failure, whatever the handler did, the records and all approval rows are as before, and the attempt is recorded |
| Tools.HandlerEnteredIff | src/custops/mcp/tools/runtime.py:233-264 | A mutating handler is entered exactly when the caller may call the tool and the row found is in scope, APPROVED, unspent and fresh |
| Tools.LooksForItsOwnRow | src/custops/mcp/tools/runtime.py:245-258 | What is looked up for a mutation is a row of its workflow, its entity and the action it names, or else the tool's own, tool by tool |
| Tools.EnteredUnderItsOwnAction | src/custops/mcp/tools/runtime.py:245-258 | A mutating handler is only entered on an approved, unspent, fresh row of its own workflow, entity and action: an approval of one act never authorises another |
| Tools.RefusedBecause | src/custops/mcp/tools/runtime.py:220-264 | Every refusal before the handler, with its code and in order, and that there is no other |
| Tools.PlanChangeDoes | src/custops/mcp/tools/enterprise.py:229-258 | A plan change lands exactly when the subscription exists and the plan is on sale, puts that one subscription on it, and otherwise says why |
| Tools.CrmSyncDoes | src/custops/mcp/tools/enterprise.py:335-347 | A CRM update lands exactly when the account exists, writes its plan and the instant, and touches no other |
| Tools.ProvisioningDoes | src/custops/mcp/tools/enterprise.py:260-332 | A provisioning call reports what the portal confirmed or its error, transient exactly for a timeout, a failed login or a missing browser; the portal keeps what was done |
| Tools.EveryAttemptIsRecorded | src/custops/mcp/tools/runtime.py:295-364 | One tool_calls row, one selected and one completed event, and a called event between them exactly when the handler was entered |
| Tools.CallTouchesOnlyItsRow | src/custops/mcp/tools/approval.py:129-132 | A call changes at most the one approval row it spends, and that only on success |
| Tools.ApprovalSpentOnlyAtTheEnd | src/custops/agents/nodes.py:818-905 | If the spending portal call fails no row is spent and billing and CRM changes stand; if it succeeds exactly the row found is spent |
| Tools.WithoutAnApprovalNothingChanges | src/custops/agents/nodes.py:840-905 | Without a row for this workflow and account each of the three calls is refused and changes neither records nor portal |
| Tools.UpgradeCallsShareARow | src/custops/agents/nodes.py:837-892 | All three calls look for the same row: this workflow, the upgrade, this account |
| Runtime.Session.ExecuteTool | src/custops/mcp/tools/runtime.py:93-217 | The imperative path with savepoint, restore and audit outside it ends exactly as the one-step specification says, for a row the lookup could have found |
| Runtime.Session.AuthoriseAndRun | src/custops/mcp/tools/runtime.py:220-264 | Inside the savepoint: refused with nothing changed, or the handler run on records whose approval is already spent |
| Runtime.Session.VerifyApproval | src/custops/mcp/tools/approval.py:53-132 | Any matching row may be the first one; it is refused or, when asked, marked spent, and no other row changes |
| Runtime.Session.Record | src/custops/mcp/tools/runtime.py:295-364 | The tool_calls row and the events of the attempt are appended in causal order |
| Runtime.Session.RunHandler | src/custops/mcp/tools/enterprise.py:229-347 | The handlers change live records and the portal as specified, errors included |
| Runtime.Session.UpdateSubscription | src/custops/mcp/tools/enterprise.py:229-258 | Moves the subscription to an active plan, or reports not found or a failed precondition and changes nothing |
| Runtime.Session.ApplyPlanChange | src/custops/apps/enterprise/billing/service.py:151-172 | Changes the plan of the one subscription and nothing else |
| Runtime.Session.UpdateAccountPlanReference | src/custops/apps/enterprise/crm/service.py:79-99 | Changes the CRM copy of the one account and nothing else |
| Runtime.LegacyPortal.SetTier | src/custops/mcp/tools/enterprise.py:273-296 | The portal keeps what was done to it, and its errors map to tool error codes |
| Runtime.Session.RequestApproval | src/custops/agents/nodes.py:693-739 | The gate adds one PENDING row for the account and one request event |
| Runtime.Session.DecideApproval | src/custops/apps/api/routers/approvals.py:142-213 | Records verdict, actor and instant exactly when decidable and permitted; otherwise the row and the events stay as they were |
| Runtime.Session.ExecuteUpgrade | src/custops/agents/nodes.py:818-911 | Makes the two or three calls in order and in time under one approval, each refining the one-step specification on the state the previous one left, and reports the step results and errors, a portal mismatch among them; without a subscription, or with several, nothing happens |
| Protocol.StepKeepsInv | src/custops/mcp/tools/runtime.py:235-264 | Every step of workflows, humans, gates, direct calls, time and other systems keeps the invariant over rows, log and runs, and only moves rows forward |
| Protocol.EveryMutationWasApproved | src/custops/mcp/tools/approval.py:69-132 | In every reachable state each mutation on record was preceded, within 24 hours, by the decision of an active user with authority over the amount, whom the row names, on a row of its execution and entity whose action is the one it names or else its tool's own; and that amount is the price some decision of the execution asked to be approved |
| Protocol.EveryChangeIsOnRecord | src/custops/mcp/tools/runtime.py:235-264 | Records and portal change only through a mutation on record, other systems aside, and the row it names was approved, unspent and fresh at that moment |
| Protocol.OnlyDecisionsChangeStatus | src/custops/apps/api/routers/approvals.py:151-213 | Rows begin PENDING at a gate, and only a decision by a user with authority changes a status |
| Protocol.RowsMoveForwardOnly | src/custops/domain/models/approval.py:82-106 | Over any stretch of a trace scope and amount stay, the status leaves PENDING at most once, a row is spent only while APPROVED, exactly by the mutation on record, and never changes again |
| Protocol.DecidedOnceSpentOnce | src/custops/mcp/tools/approval.py:102-132 | No row is decided twice, and none authorises anything after it was spent |
| Protocol.WorkflowStaysOnItsAccount | src/custops/agents/nodes.py:837-892 | A call of the execute node names the run's own account and changes nothing of any other, and moves its plans to the target or not at all |
| Protocol.ExecuteUpgradeIsAStretch | src/custops/agents/nodes.py:818-905 | From what ExecuteUpgrade promises of its calls: one EXECUTE visit of the runtime is a stretch of the interleaved system, a tick and a workflow call for each call and then the visit that learns their results, so every theorem about the system holds of it |
| Protocol.ExecuteHadAHuman | src/custops/agents/nodes.py:741-779 | Before an EXECUTE visit whose decision needed approval its gate was resumed, and at that moment the row of its own execution it read was APPROVED and the log already held a human's approval of it, with authority |
| Protocol.AutomaticPathChangesNothing | src/custops/mcp/tools/runtime.py:235-258 | A workflow none of whose decisions asked for approval has every mutating call refused and changes nothing |
| Completion.CompletedWasRead | src/custops/agents/nodes.py:943-972 | A workflow that ended COMPLETED read billing, the CRM and the portal in this order during its validate visit, and each held the target for its account when it was read; it suffices that nobody wrote to the account in billing or the CRM in between for all to have held it together at the last read |
| Recovery.CallMoment | src/custops/agents/nodes.py:840-905 | Whatever a run holds as the result of a call is what one step of the trace, made since the run came to EXECUTE, came to |
| Recovery.ExecuteVisitCalled | src/custops/agents/nodes.py:840-911 | Each result an EXECUTE visit learned is that of its own call, first to third, made between the visit before it and itself |
| Recovery.RetryWasAuthorised | src/custops/agents/routing.py:143-166 | Every retry repeats work a human approved: since the visit before the EXECUTE it follows, the portal was called under a row of the same execution that a decision of the run had asked for, approved with authority by a decision on the log, unspent and fresh at that moment |
| Recovery.WithoutARequestNoRetry | src/custops/agents/routing.py:143-166 | A workflow none of whose decisions asked for approval is never retried, whatever its budget |
| Recovery.ExecuteWasEligible | src/custops/apps/enterprise/assessment.py:92-178 | Every EXECUTE visit was cleared by a decision of its own plan cycle, and at the moment of that decision the target was on sale and the account had an active subscription to another plan |
| Recovery.WorthRepeatingWasAuthorised | src/custops/mcp/tools/runtime.py:220-264 | A portal call that succeeded or failed in passing had been let through on a row of its execution that authorised it; refusals are never transient |
| Scenarios.RetryHappens | src/custops/agents/routing.py:143-153 | Under every policy with a replan and a retry, a concrete trace: an automatic plan is refused and read as divergent; after a replan a discount asks for approval, a user approves, billing and the CRM move, the portal moves but its confirmation times out, validate reads the target everywhere, where it does hold, and the next visit is a retry |
| Scenarios.CompletedWithoutACommonMoment | src/custops/agents/nodes.py:943-972 | A concrete trace, from records on which the upgrade is eligible, that ends COMPLETED although all three of its calls were refused and at no moment of it did all three systems hold the target |
| Assessment.OfferIsAssessed | src/custops/apps/enterprise/assessment.py:150-178 | The records those traces decide on are assessed as eligible at exactly their price, and ask for a human exactly when the amount or the discount is over its limit |
| Protocol.RowsAreAskedFor | src/custops/agents/nodes.py:677-739 | Every approval row belongs to a workflow that asked for one, and its amount is the price that decision had worked out |
| Protocol.TracesEvolve | src/custops/domain/models/approval.py:59-106 | Over any stretch of any trace the rows evolve, time does not run back and the log only grows |
| Chunking.ChunkText | src/custops/knowledge/ingestion/chunking.py:60-118 | The loop returns the chunks of the windows, or the first complaint about the parameters; the early return for blank text changes nothing |
| Chunking.ChunksAreCutNicely | src/custops/knowledge/ingestion/chunking.py:84-140 | Of every text: windows that start at 0, end at the nicest place within the limit, overlap as asked and reach the end, and one chunk per window that is not blank, from its first to its last character that is not white space |
| Chunking.BoundaryIsNicest | src/custops/knowledge/ingestion/chunking.py:121-140 | The boundary is the end of the last paragraph break in the last 300 characters; without one that of the last sentence end; else just after the last space; else the limit |
| Chunking.ParametersAreChecked | src/custops/knowledge/ingestion/chunking.py:73-82 | Parameters that could not make progress are refused, with the complaint that fits |
| Chunking.PatternsMean | src/custops/knowledge/ingestion/chunking.py:38-39 | The characters that make up a paragraph break and a sentence end |
| Chunking.ChunksAreExact | src/custops/knowledge/ingestion/chunking.py:84-118 | Indices 0..n-1 in reading order; each chunk is exactly the source between its offsets, never empty, never over the limit, with no white space at either end |
| Chunking.NothingIsLost | src/custops/knowledge/ingestion/chunking.py:91-116 | Every character that is not white space lies in some chunk |
| Chunking.ChunksDetermineText | src/custops/knowledge/ingestion/chunking.py:84-118 | Two texts of one length with the same chunks differ at most in which white space they use |
| Chunking.ChunksAreFew | src/custops/knowledge/ingestion/chunking.py:91-116 | At most 1 + (len-1)/max(1, max-299-overlap) chunks, a stride of 751 at the defaults |
| Chunking.OverlapWorksIff | src/custops/knowledge/ingestion/chunking.py:68-72 | Every stretch no longer than the overlap survives whole in some chunk, for every text, exactly when overlap <= 2 or overlap + 299 <= max |
| Chunking.AwkwardIsCut | src/custops/knowledge/ingestion/chunking.py:121-140 | For all other parameters a concrete text has a stretch of that length in no chunk |
| Chunking.FindBoundary | src/custops/knowledge/ingestion/chunking.py:121-140 | Paragraph break, else sentence end, else space, else the limit, each the rightmost in the window |
| Chunking.LastMatchEnd | src/custops/knowledge/ingestion/chunking.py:143-147 | The last match of the left-to-right scan ends where the rightmost match of any kind ends |
| Chunking.MatchAt | src/custops/knowledge/ingestion/chunking.py:38-39 | The greedy, backtracking match from a position is the longest match there |
| Chunking.BoundaryRange | src/custops/knowledge/ingestion/chunking.py:121-140 | A boundary makes progress, stays within the limit and gives up at most 299 characters of it |
| Ingestion.KnowledgeIndex.IngestDocument | src/custops/knowledge/ingestion/pipeline.py:46-138 | Ends as the specification says; on a misaligned batch no other document and no other rows are touched |
| Ingestion.KnowledgeIndex.EmbedAndStore | src/custops/knowledge/ingestion/pipeline.py:107-138 | The batch loop stores exactly the rows of the batches, or stops at the first misaligned one |
| Ingestion.KnowledgeIndex.IngestMany | src/custops/knowledge/ingestion/pipeline.py:202-243 | Documents one after another, with the four counters |
| Ingestion.KnowledgeIndex.IngestCorpus | src/custops/cli.py:112-116 | Policies then contracts in one transaction: both land, or the corpus is as before |
| Ingestion.IngestionKeepsFaithful | src/custops/knowledge/ingestion/pipeline.py:75-138 | Whichever document is ingested, every stored document's rows are its body's chunks in order with their embeddings |
| Ingestion.CorpusHoldsLastBodies | src/custops/knowledge/ingestion/pipeline.py:202-243 | After any run of ingestions over a faithful corpus every source holds the body it was last given, provided no two of these bodies share a digest |
| Ingestion.AgainIsANoOp | src/custops/knowledge/ingestion/pipeline.py:64-76 | Ingesting the same body again writes nothing and changes nothing, not even a new title or scope |
| Ingestion.SecondRunWritesNothing | src/custops/knowledge/ingestion/pipeline.py:202-243 | Running the same documents again, each source once, writes nothing at all |
| Ingestion.ZeroWrittenIff | src/custops/knowledge/ingestion/pipeline.py:60-61 | Zero chunks written means an unchanged body or a blank one; only the former leaves the index as it was |
| Ingestion.BatchSizeDoesNotMatter | src/custops/knowledge/ingestion/pipeline.py:111-135 | With a provider that embeds each text on its own, any batch size stores the same rows |
| Ingestion.IngestedRows | src/custops/knowledge/ingestion/pipeline.py:93-135 | Ingesting a document replaces exactly its own rows |
| Ingestion.WhatIsStored | src/custops/knowledge/ingestion/pipeline.py:60-138 | What one ingestion leaves: title, category, body, scope, digest and instant as given, the former identifier or a fresh one, one row per chunk with the vector the provider gave for it in its batch of 64, and every other document and its rows as before |
| Ingestion.RowsReadTheBody | src/custops/knowledge/ingestion/pipeline.py:120-135 | The stored rows are numbered from 0 and each holds exactly the body between its offsets |
| Ingestion.FailsIff | src/custops/knowledge/ingestion/pipeline.py:111-119 | An ingestion fails exactly when the provider answers some batch with another number of vectors |
| Ingestion.CountersAddUp | src/custops/knowledge/ingestion/pipeline.py:209-243 | Each document is counted once, as updated or unchanged by whether it had chunks written, and the chunks add up |
| Redaction.Redact | src/custops/observability/redaction.py:104-136 | The recursive method computes the redacted tree |
| Redaction.RedactMapping | src/custops/observability/redaction.py:139-158 | The loop over an object's fields, with later keys taking earlier ones' places, computes the redacted object |
| Redaction.RedactedIsClean | src/custops/observability/redaction.py:143-156 | No reasoning key at any depth, every secret masked, no key twice in one object |
| Redaction.RedactedIsBounded | src/custops/observability/redaction.py:76-81 | Strings, lists and nesting are within the fixed bounds everywhere outside the list of withheld keys |
| Redaction.NothingLeaks | src/custops/observability/redaction.py:143-156 | Payloads that differ only under reasoning keys and secrets have the same redaction |
| Redaction.UntouchedIffHarmless | src/custops/observability/redaction.py:104-136 | Redaction leaves a payload alone exactly when nothing in it is to be redacted |
| Redaction.IdempotentIffStable | src/custops/observability/redaction.py:104-164 | Redacting again changes nothing exactly when lists have at most 51 items and reasoning keys occur only at depth 3 or less, at most 50 per object, each at most 2000 characters |
| Redaction.FiftyTwoItemsAreUnstable | src/custops/observability/redaction.py:119-124 | A list of 52 items is redacted differently the second time, at every depth |
| Redaction.DeepThoughtsAreUnstable | src/custops/observability/redaction.py:153-156 | So is a reasoning key at depth 4 |
| Redaction.MarkerIsOrdinary | src/custops/observability/redaction.py:84-101 | The marker that lists withheld keys is itself neither dropped nor masked |
| Disclosure.SecretsAreMasked | src/custops/observability/redaction.py:88-101 | Any listed secret name, in any case, with any white space around, alone or after any prefix that ends in an underscore or a dot, has its value masked |
| Disclosure.SecretIff | src/custops/observability/redaction.py:88-101 | A key counts as a secret exactly when it is such a name |
| Disclosure.ReasoningIff | src/custops/observability/redaction.py:84-85 | A key counts as reasoning exactly when it is a listed name, in any case, with any white space around |
| Disclosure.OneField | src/custops/observability/redaction.py:139-158 | A field under a reasoning name leaves only the marker that lists it, one under a secret name keeps the name, any other keeps its redacted value |
| Disclosure.PolicyVersionIsDisclosed | src/custops/observability/redaction.py:91-94 | The version of a password policy is not a secret |
| Disclosure.ObjectDiscloses | src/custops/observability/redaction.py:139-158 | Of a whole object: under each key the mask or the redaction of its last value, no reasoning key, and the sorted list of those withheld; nothing else |
| Disclosure.ListsAre | src/custops/observability/redaction.py:119-124 | The first 50 items, in order and each redacted, and how many more there were |
| Disclosure.ScalarsAre | src/custops/observability/redaction.py:126-136 | Text is cut after 2000 characters and says so; numbers, booleans and null are disclosed as they are |
| Disclosure.DigitsRoundTrip | src/custops/observability/redaction.py:122-123 | The number of items left out is written so that it reads back |
| Redaction.SortedSorts | src/custops/observability/redaction.py:153-156 | The withheld keys are listed in order, none lost |
| Timeline.BuildTimeline | src/custops/observability/trace.py:89-163 | The three loops and the sort build the merged timeline |
| Timeline.NothingIsLost | src/custops/observability/trace.py:89-163 | Exactly the entries of the three sources, in order, each with a redacted detail |
| Timeline.RowsAreInOrder | src/custops/observability/trace.py:159-163 | Of any two rows, whatever their kinds, the one with the earlier instant comes first; at one instant the one its source counts first; then by the name of the kind |
| Timeline.EveryRowAppears | src/custops/observability/trace.py:104-157 | Each step, tool call and event has its entry, with its name, instant and redacted detail, and there are no others |
| Timeline.InputOrderDoesNotMatter | src/custops/observability/trace.py:159-163 | Steps and events may be loaded in any order: the timeline is the same, given their own keys |
| Timeline.EventsKeepInsertionOrder | src/custops/observability/trace.py:9-21 | Of two events, the one inserted first and not later comes first, wherever the two end up |
| Timeline.ToolCallsAreInOrder | src/custops/observability/trace.py:9-21 | Whatever a tool call came to, the timeline shows its events in causal order: selected first, completed last, called in between exactly when its handler was entered |
| Timeline.EveryEventAppears | src/custops/observability/trace.py:138-157 | Every event has its entry in the timeline |
| Timeline.SortIsStable | src/custops/observability/trace.py:159-163 | Entries with one sort key keep the order they came in |
| Evaluation.PlanningAccuracy | src/custops/evaluation/evaluators.py:84-104 | The greedy scan counts exactly the longest prefix of the plan that is a subsequence of the visits |
| Evaluation.ScoreMeans | src/custops/evaluation/evaluators.py:84-104 | The score is the share of the longest prefix visited in order, to the nearest thousandth, halves to even; an empty plan scores 1.0 |
| Evaluation.MoreVisitsNeverHurt | src/custops/evaluation/evaluators.py:84-104 | Extending the visits never lowers the score, which stays between 0 and 1 |
| Evaluation.PerfectMeansWholePlanIff | src/custops/evaluation/evaluators.py:104 | A score of 1.0 means the whole plan was visited in order, for all visits, exactly for plans of fewer than 2000 nodes |
| Runner.Recorder.NextSequence | src/custops/apps/orchestrator/runner.py:289-301 | One more than the highest number on record for the execution, or 0 |
| Runner.Recorder.Drive | src/custops/apps/orchestrator/runner.py:188-199 | Across any start or resume, with other executions writing in between, the rows stay numbered 0..n-1 and grow by exactly the visits; a pause is not a visit |
| Runner.Recorder.StartAndResume | src/custops/apps/orchestrator/runner.py:124-199 | One start and any number of resumes of a run, others recording meanwhile: the record is numbered 0..n-1, is exactly the run's visits so far, and is a path of the graph with its pauses |
| Runner.SessionsMakeAPath | src/custops/apps/orchestrator/runner.py:188-199 | The visits streamed over any number of sessions form a path: each node is the one the edges prescribe in the state the run was in, the gates on it are exactly the pauses the run was resumed from, each with the decision it read, and a pending gate is not on it |
| Runner.GatesArePauses | src/custops/apps/orchestrator/runner.py:188-193 | A visit of a gate is on record exactly where an earlier session paused, never before it was resumed |
| Runner.StreamsVisit | src/custops/apps/orchestrator/runner.py:188-199 | What is recorded of one session is exactly the stretch of the run it went through; the pause at its end is not a visit |
| Runner.EndedRunsAreReported | src/custops/apps/orchestrator/runner.py:376-384 | A run at its end is reported completed or escalated, and completed only with all systems read and agreeing |

## Left out

- LangGraph and the checkpointer: a run is merge, then route; a pause and a resume are steps, and `Runner.Streams` is taken as what a start or resume streams. `build_graph` is the function `Graph.Next` instead of a graph object filled in place.
- SQLAlchemy and PostgreSQL: rows are values in maps and a savepoint is a saved copy, so aliasing of loaded rows and isolation between transactions are not captured; the read, check and write of a decision is one atomic step by assumption, and so is one tool call, one assessment of an account, and one read of one system, in `Protocol`; the audit rows of those reads are not part of it.
- Rollback of the portal: it is another system; atomicity is claimed for the database records only.
- Binding of a tool's arguments to the approval's entity for arbitrary callers: the runtime does not compare them; entity claims are made for the execute node.
- Authority policies other than the default one, which the endpoint and the tools both use; `Approvals` takes the policy as a parameter.
- Protocol.ExecuteHadAHuman: the approval it finds is that of the gate; the row may be spent or stale by the time the tools verify it, and the call is then refused.
- Nodes.ExecuteIsCleared: is about the visits of one run; that a node which raises makes no visit is taken from the graph library.
- A process that dies inside a node: in `Protocol` a run that has begun its calls or reads only goes on with them.
- Protocol.Assesses: ties a decision to the account, the plans and the subscription on record; standing, contract terms, invoices, discounts and prices are not part of the modelled records and may be anything. What research reads is not tied to them either.
- Runtime.Session.ExecuteUpgrade: leaves out the seats passed to the portal and the detail text of the step results.
- The text details of execution errors.
- Plans, messages, rationales, reasons, decisions, citations and other text fields of the state, the rows and the replies: nothing routes on them.
- Metadata entries other than evidence sufficiency and the prorated amount.
- The specialist's confidence, summary, evidence list and the audit rows its tool calls write; a failed contract read there counts as no contract.
- Interpretation of a reply that crossed the process boundary: a consultation is an arbitrary recommendation, a refusal or unavailable.
- Prices between plans of different currencies; currency is carried along by the code and never compared.
- Redaction of numbers that are not finite, and of payloads that refer to themselves.
- Evaluation.PlanningAccuracy: rounds the exact quotient, halves to even; the binary floating-point quotient of the code can differ only on an exact tie, and steps are given in sequence order.
- Ingestion.BatchSizeDoesNotMatter: assumes a provider that answers each text on its own; what the numbers of an embedding mean is not modelled, and SHA-256 is a parameter.
- Runner.Recorder.Drive: two drives of one execution at the same time, which the unique constraint on its numbers refuses.
- The events a runner writes besides steps (started, retry, replan, finished) and the final summary row.
- Other evaluators, coverage of events, tool listings per role: short set comprehensions.
- Model calls, embedding providers, vector search, browser automation, HTTP, tokens and endpoint roles, logging, the command line beyond the ingestion transaction, migrations, seeds.
