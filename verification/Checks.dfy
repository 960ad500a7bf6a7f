/** The stage checks of the safety gateway. Each returns the reason it fails, if it does. */
module Checks {
  import opened Identity
  import opened Domain

  const VALID_TARGET_TYPES: set<string> := {"payment", "subscription"}

  function CheckSchemaAndVersion(proposal: Proposal, target: Target, config: GatewayConfig): Option<Reason> {
    if proposal.decisionVersion != DECISION_VERSION then
      Some(SchemaValidationFailed)
    else if proposal.policyVersion != POLICY_VERSION || config.policyVersion != POLICY_VERSION then
      Some(SchemaValidationFailed)
    else if config.gatewayVersion != GATEWAY_VERSION then
      Some(GatewayConfigurationError)
    else if target.targetType !in VALID_TARGET_TYPES then
      Some(SchemaValidationFailed)
    else
      None
  }

  function CheckProposalIdentity(proposal: Proposal, target: Target): Option<Reason> {
    if proposal.targetId != target.targetId then
      Some(ProposalIdentityMismatch)
    else if proposal.targetType != target.targetType then
      Some(ProposalIdentityMismatch)
    else if proposal.proposalId
         != DeriveProposalId(proposal.decisionVersion, proposal.policyVersion, proposal.targetType,
                             proposal.targetId) then
      Some(ProposalIdentityMismatch)
    else
      None
  }

  function CheckFinancialIntegrity(proposal: Proposal, target: Target): Option<Reason> {
    if target.amountMinor <= 0 || proposal.amountMinor <= 0 then
      Some(InvalidFinancialUnit)
    else if proposal.amountMinor != target.amountMinor then
      Some(AmountMismatch)
    else if proposal.currency != target.currency then
      Some(CurrencyMismatch)
    else
      None
  }

  function CheckActionAllowlist(proposal: Proposal): Option<Reason> {
    if proposal.action !in EXECUTABLE_ACTIONS then
      if proposal.action == NoAction then Some(NonExecutableAction) else Some(MissingHumanApproval)
    else
      None
  }

  predicate InCodes(code: Option<string>, codes: set<string>) {
    code.Some? && code.value in codes
  }

  predicate AttemptsExhausted(target: Target, policy: GatewayPolicy) {
    target.attemptCount >= policy.maxTargetAttempts + 1
  }

  predicate ChronicFailure(target: Target, policy: GatewayPolicy) {
    target.historyCount >= 3 && target.successRateBps < 2500
    && InCodes(target.latestFailureCode, policy.blockedDeclineCodes)
  }

  function CheckRetryAndChronic(target: Target, policy: GatewayPolicy): Option<Reason> {
    if AttemptsExhausted(target, policy) then
      Some(RetryLimitExceeded)
    else if ChronicFailure(target, policy) then
      Some(ChronicFailureInvariant)
    else
      None
  }

  function CheckFailureCategory(proposal: Proposal, target: Target, policy: GatewayPolicy): Option<Reason> {
    if InCodes(target.latestFailureCode, policy.unrecoverableFraudCodes) then
      Some(UnresolvedHardDecline)
    else if proposal.action == RetryPayment
         && InCodes(target.latestFailureCode, policy.blockedDeclineCodes)
         && target.successRateBps < policy.minReliableSuccessRateBps then
      Some(UnresolvedHardDecline)
    else
      None
  }

  /** The white space that `str.strip` removes. */
  predicate IsSpace(c: char) {
    var n := c as int;
    9 <= n <= 13 || 28 <= n <= 32 || n == 0x85 || n == 0xA0 || n == 0x1680 || 0x2000 <= n <= 0x200A
    || n == 0x2028 || n == 0x2029 || n == 0x202F || n == 0x205F || n == 0x3000
  }

  predicate Blank(s: string) {
    forall i :: 0 <= i < |s| ==> IsSpace(s[i])
  }

  predicate NeedsApproval(proposal: Proposal, target: Target, config: GatewayConfig) {
    target.amountMinor >= config.highValueThresholdMinor
    || proposal.requiresHumanApproval
    || proposal.action == HumanReview
  }

  predicate ApprovalMatches(proposal: Proposal, approval: Approval) {
    approval.proposalId == proposal.proposalId && approval.targetId == proposal.targetId
    && approval.approved && !Blank(approval.approvedBy)
  }

  function CheckHumanApproval(proposal: Proposal, target: Target, config: GatewayConfig, approval: Option<Approval>)
    : Option<Reason>
  {
    if !NeedsApproval(proposal, target, config) then
      None
    else if approval.None? then
      if target.amountMinor >= config.highValueThresholdMinor
      then Some(HighValueRequiresReview) else Some(MissingHumanApproval)
    else if !ApprovalMatches(proposal, approval.value) then
      Some(InvalidHumanApproval)
    else
      None
  }
}
