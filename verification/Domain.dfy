/** The contracts exchanged between the decision agent, the safety gateway and the
    execution layer. Amounts are integer minor units, times are integer milliseconds. */
module Domain {
  import opened Identity

  datatype Option<+T> = None | Some(value: T)

  const DECISION_VERSION := "v1"
  const POLICY_VERSION := "v1"
  const GATEWAY_VERSION := "v1"

  datatype Action =
    | NoAction
    | RetryPayment
    | RetryLater
    | RequestPaymentMethodUpdate
    | SubscriptionRecoveryWorkflow
    | HumanReview

  const EXECUTABLE_ACTIONS: set<Action> :=
    {RetryPayment, RetryLater, RequestPaymentMethodUpdate, SubscriptionRecoveryWorkflow}

  function ActionName(action: Action): string {
    match action
    case NoAction => "NO_ACTION"
    case RetryPayment => "RETRY_PAYMENT"
    case RetryLater => "RETRY_LATER"
    case RequestPaymentMethodUpdate => "REQUEST_PAYMENT_METHOD_UPDATE"
    case SubscriptionRecoveryWorkflow => "SUBSCRIPTION_RECOVERY_WORKFLOW"
    case HumanReview => "HUMAN_REVIEW"
  }

  lemma ActionNamesDiffer(a: Action, b: Action)
    requires ActionName(a) == ActionName(b)
    ensures a == b
  {
  }

  datatype DecisionStatus = Proposed | ReviewRequired | DecisionBlocked | NoActionWarranted

  datatype Proposal = Proposal(
    decisionVersion: string,
    policyVersion: string,
    proposalId: Uuid,
    targetType: string,
    targetId: Uuid,
    amountMinor: int,
    currency: string,
    action: Action,
    status: DecisionStatus,
    requiresHumanApproval: bool)

  /** The trusted observable facts about the thing to be recovered. */
  datatype Target = Target(
    targetType: string,
    targetId: Uuid,
    customerId: Uuid,
    amountMinor: int,
    currency: string,
    historyCount: int,
    successRateBps: int,
    attemptCount: int,
    latestFailureCode: Option<string>)

  datatype Approval = Approval(proposalId: Uuid, targetId: Uuid, approvedBy: string, approved: bool)

  datatype GatewayConfig = GatewayConfig(
    gatewayVersion: string,
    policyVersion: string,
    decisionVersion: string,
    highValueThresholdMinor: int)

  datatype GatewayPolicy = GatewayPolicy(
    maxTargetAttempts: int,
    minReliableSuccessRateBps: int,
    blockedDeclineCodes: set<string>,
    unrecoverableFraudCodes: set<string>)

  const DEFAULT_GATEWAY_CONFIG := GatewayConfig(GATEWAY_VERSION, POLICY_VERSION, DECISION_VERSION, 500000)

  const DEFAULT_GATEWAY_POLICY :=
    GatewayPolicy(2, 7500, {"generic_decline", "unknown_failure"}, {"suspected_fraud", "stolen_card", "lost_card"})

  datatype Decision = Approved | Blocked | RequiresReview | KillSwitchActive | RateLimited | InvalidProposal

  datatype Reason =
    | ApprovedForExecutionLayer
    | SchemaValidationFailed
    | ProposalIdentityMismatch
    | NonExecutableAction
    | AmountMismatch
    | CurrencyMismatch
    | InvalidFinancialUnit
    | RetryLimitExceeded
    | ChronicFailureInvariant
    | UnresolvedHardDecline
    | HighValueRequiresReview
    | MissingHumanApproval
    | InvalidHumanApproval
    | ConflictingProposalForTarget
    | IdempotentReplayApproved
    | IdempotentReplayBlocked
    | RateLimitExceeded
    | KillSwitchEngaged
    | GatewayConfigurationError

  /** The ten checks in pipeline order. */
  const CHECKS: seq<string> := [
    "kill_switch_check",
    "schema_and_version_validation",
    "proposal_identity_validation",
    "financial_integrity_validation",
    "idempotency_replay_check",
    "action_allowlist_validation",
    "retry_and_chronic_invariants",
    "failure_category_safety",
    "high_value_and_human_approval",
    "rate_limit_check"]

  datatype GatewayResult = GatewayResult(
    decision: Decision,
    proposalId: Uuid,
    targetType: string,
    targetId: Uuid,
    reason: Reason,
    policyVersion: string,
    gatewayVersion: string,
    decisionVersion: string,
    checksEvaluated: seq<string>,
    checksPassed: seq<string>,
    reference: Uuid,
    eligible: bool,
    isReplay: bool)

  datatype AuditRecord = AuditRecord(
    reference: Uuid,
    evaluatedAt: int,
    proposalId: Uuid,
    targetType: string,
    targetId: Uuid,
    customerId: Uuid,
    amountMinor: int,
    currency: string,
    action: Action,
    decision: Decision,
    reason: Reason,
    policyVersion: string,
    gatewayVersion: string,
    decisionVersion: string,
    checksEvaluated: seq<string>,
    checksPassed: seq<string>,
    eligible: bool,
    isReplay: bool)

  /** What identifies a target everywhere: its type together with its id. */
  datatype TargetKey = TargetKey(targetType: string, targetId: Uuid)

  function KeyOf(target: Target): TargetKey {
    TargetKey(target.targetType, target.targetId)
  }
}
