/** The decision agent: the precedence chain that turns observable facts and an optional AI
    diagnosis into a proposal, and how the safety gateway judges what it proposes. */
module Decision {
  import opened Identity
  import opened Domain
  import opened Checks
  import opened RateLimit
  import opened GatewaySpec

  datatype DiagnosisStatus = DiagnosisSucceeded | DiagnosisProviderError | DiagnosisInvalid | DiagnosisTimedOut

  datatype Category =
    | TransientSystemError
    | BalanceOrLimitDeficit
    | ExpiredOrInvalidMethod
    | PersistentIssuerDecline
    | SubscriptionBillingIssue
    | FirstTimeUserDrop
    | InsufficientData

  datatype Diagnosis = Diagnosis(status: DiagnosisStatus, category: Category)

  /** `facts` are the observable fields, the same ones that the gateway's trusted target carries. */
  datatype Context = Context(facts: Target, subscriptionStatus: Option<string>, diagnosis: Option<Diagnosis>)

  datatype RecoveryPolicy = RecoveryPolicy(
    policyVersion: string,
    maxRetryAttempts: int,
    highValueThresholdMinor: int,
    blockedDeclineCodes: set<string>)

  const DEFAULT_RECOVERY_POLICY := RecoveryPolicy(POLICY_VERSION, 2, 500000, {"generic_decline", "unknown_failure"})

  datatype Routing = Routing(action: Action, status: DecisionStatus, cooldown: bool, needsApproval: bool)

  predicate Diagnosed(ctx: Context, category: Category) {
    ctx.diagnosis.Some? && ctx.diagnosis.value.category == category
  }

  // ---------------------------------------------------------------------------
  // When each rule of the chain would fire on its own
  // ---------------------------------------------------------------------------

  predicate HardBlocked(policy: RecoveryPolicy, ctx: Context) {
    || ctx.facts.attemptCount > policy.maxRetryAttempts
    || (ctx.facts.historyCount >= 3 && ctx.facts.successRateBps < 2500
        && InCodes(ctx.facts.latestFailureCode, policy.blockedDeclineCodes))
  }

  predicate Escalated(policy: RecoveryPolicy, ctx: Context) {
    || ctx.facts.amountMinor >= policy.highValueThresholdMinor
    || (ctx.diagnosis.Some? && ctx.diagnosis.value.status != DiagnosisSucceeded)
    || ctx.facts.latestFailureCode == Some("unknown_failure")
  }

  predicate PastDue(ctx: Context) {
    ctx.facts.targetType == "subscription" && ctx.subscriptionStatus == Some("past_due")
  }

  predicate Suggests(ctx: Context, code: string, category: Category) {
    ctx.facts.latestFailureCode == Some(code) || Diagnosed(ctx, category)
  }

  /** The action for which the facts speak, in order of precedence, when nothing forbids
      automation. */
  function Suggested(ctx: Context): Option<Action> {
    if PastDue(ctx) then Some(SubscriptionRecoveryWorkflow)
    else if Suggests(ctx, "expired_payment_method", ExpiredOrInvalidMethod) then Some(RequestPaymentMethodUpdate)
    else if Suggests(ctx, "insufficient_funds", BalanceOrLimitDeficit) then Some(RetryLater)
    else if Suggests(ctx, "temporary_failure", TransientSystemError) then Some(RetryPayment)
    else None
  }

  /** The proposal is a hard block, an escalation, an automated action, or nothing, each on
      exactly these conditions. */
  ghost predicate Routes(policy: RecoveryPolicy, ctx: Context, r: Routing) {
    && (r.status == Proposed <==> !HardBlocked(policy, ctx) && !Escalated(policy, ctx) && Suggested(ctx).Some?)
    && (r.status == Proposed ==> Some(r.action) == Suggested(ctx))
    && (r.status == ReviewRequired <==> !HardBlocked(policy, ctx) && Escalated(policy, ctx))
    && (r.status == ReviewRequired <==> r.action == HumanReview)
    && (r.status in {DecisionBlocked, NoActionWarranted} <==> r.action == NoAction)
    && (r.status == NoActionWarranted <==>
          !HardBlocked(policy, ctx) && !Escalated(policy, ctx) && Suggested(ctx).None?
          && !Suggests(ctx, "generic_decline", PersistentIssuerDecline))
    && (r.needsApproval <==> r.action == HumanReview)
    && (r.cooldown <==> r.action == RetryLater)
  }

  /** Which action is proposed, and with which status, each on its own condition. */
  lemma ActionsExactly(policy: RecoveryPolicy, ctx: Context, r: Routing)
    requires Routes(policy, ctx, r)
    ensures r.action == HumanReview <==> !HardBlocked(policy, ctx) && Escalated(policy, ctx)
    ensures r.action == SubscriptionRecoveryWorkflow <==> Free(policy, ctx) && PastDue(ctx)
    ensures r.action == RequestPaymentMethodUpdate <==>
              Free(policy, ctx) && !PastDue(ctx) && Suggests(ctx, "expired_payment_method", ExpiredOrInvalidMethod)
    ensures r.action == RetryLater <==>
              && Free(policy, ctx) && !PastDue(ctx)
              && !Suggests(ctx, "expired_payment_method", ExpiredOrInvalidMethod)
              && Suggests(ctx, "insufficient_funds", BalanceOrLimitDeficit)
    ensures r.action == RetryPayment <==>
              && Free(policy, ctx) && !PastDue(ctx)
              && !Suggests(ctx, "expired_payment_method", ExpiredOrInvalidMethod)
              && !Suggests(ctx, "insufficient_funds", BalanceOrLimitDeficit)
              && Suggests(ctx, "temporary_failure", TransientSystemError)
    ensures r.status == Proposed <==> r.action in EXECUTABLE_ACTIONS
    ensures r.status == ReviewRequired <==> r.action == HumanReview
    ensures r.status == DecisionBlocked <==>
              r.action == NoAction
              && (HardBlocked(policy, ctx) || Suggests(ctx, "generic_decline", PersistentIssuerDecline))
  {
    SuggestedExactly(ctx);
    hide HardBlocked, Escalated, PastDue, Suggests, Suggested;
  }

  predicate Free(policy: RecoveryPolicy, ctx: Context) {
    !HardBlocked(policy, ctx) && !Escalated(policy, ctx)
  }

  lemma SuggestedExactly(ctx: Context)
    ensures var update, later := Suggests(ctx, "expired_payment_method", ExpiredOrInvalidMethod),
                                 Suggests(ctx, "insufficient_funds", BalanceOrLimitDeficit);
            var now := Suggests(ctx, "temporary_failure", TransientSystemError);
            Suggested(ctx) == if PastDue(ctx) then Some(SubscriptionRecoveryWorkflow)
                              else if update then Some(RequestPaymentMethodUpdate)
                              else if later then Some(RetryLater)
                              else if now then Some(RetryPayment)
                              else None
  {
    hide PastDue, Suggests;
  }

  /** The conditions in the fields of the context. */
  lemma ConditionsTell(policy: RecoveryPolicy, ctx: Context)
    ensures var f, code, d := ctx.facts, ctx.facts.latestFailureCode, ctx.diagnosis;
            && (HardBlocked(policy, ctx) <==>
                  f.attemptCount >= policy.maxRetryAttempts + 1
                  || (f.historyCount >= 3 && f.successRateBps < 2500
                      && code.Some? && code.value in policy.blockedDeclineCodes))
            && (Escalated(policy, ctx) <==>
                  f.amountMinor >= policy.highValueThresholdMinor
                  || (d.Some? && d.value.status != DiagnosisSucceeded) || code == Some("unknown_failure"))
            && (PastDue(ctx) <==> f.targetType == "subscription" && ctx.subscriptionStatus == Some("past_due"))
            && forall s, c :: Suggests(ctx, s, c) <==> code == Some(s) || (d.Some? && d.value.category == c)
  {
  }

  lemma RoutingIsDetermined(policy: RecoveryPolicy, ctx: Context, r1: Routing, r2: Routing)
    requires Routes(policy, ctx, r1) && Routes(policy, ctx, r2)
    ensures r1 == r2
  {
  }

  class RecoveryDecisionAgent {
    const policy: RecoveryPolicy
    const decisionVersion: string

    constructor (policy: RecoveryPolicy, decisionVersion: string)
      ensures this.policy == policy && this.decisionVersion == decisionVersion
    {
      this.policy, this.decisionVersion := policy, decisionVersion;
    }

    method EvaluateProposal(ctx: Context) returns (proposal: Proposal, cooldown: bool)
      ensures var r := Routing(proposal.action, proposal.status, cooldown, proposal.requiresHumanApproval);
              Routes(policy, ctx, r) && proposal == ProposalFor(policy, decisionVersion, ctx, r)
    {
      var facts := ctx.facts;
      var action, status;
      var needsApproval := false;
      cooldown := false;
      if facts.attemptCount >= policy.maxRetryAttempts + 1 {
        action, status := NoAction, DecisionBlocked;
      } else if facts.historyCount >= 3 && facts.successRateBps < 2500
                && InCodes(facts.latestFailureCode, policy.blockedDeclineCodes)
      {
        action, status := NoAction, DecisionBlocked;
      } else if facts.amountMinor >= policy.highValueThresholdMinor {
        action, status, needsApproval := HumanReview, ReviewRequired, true;
      } else if ctx.diagnosis.Some? && ctx.diagnosis.value.status != DiagnosisSucceeded {
        action, status, needsApproval := HumanReview, ReviewRequired, true;
      } else if facts.latestFailureCode == Some("unknown_failure") {
        action, status, needsApproval := HumanReview, ReviewRequired, true;
      } else if facts.targetType == "subscription" && ctx.subscriptionStatus == Some("past_due") {
        action, status := SubscriptionRecoveryWorkflow, Proposed;
      } else if facts.latestFailureCode == Some("expired_payment_method") || Diagnosed(ctx, ExpiredOrInvalidMethod) {
        action, status := RequestPaymentMethodUpdate, Proposed;
      } else if facts.latestFailureCode == Some("insufficient_funds") || Diagnosed(ctx, BalanceOrLimitDeficit) {
        action, status, cooldown := RetryLater, Proposed, true;
      } else if facts.latestFailureCode == Some("temporary_failure") || Diagnosed(ctx, TransientSystemError) {
        action, status := RetryPayment, Proposed;
      } else if facts.latestFailureCode == Some("generic_decline") || Diagnosed(ctx, PersistentIssuerDecline) {
        action, status := NoAction, DecisionBlocked;
      } else {
        action, status := NoAction, NoActionWarranted;
      }
      proposal := Proposal(decisionVersion, policy.policyVersion,
                           DeriveProposalId(decisionVersion, policy.policyVersion, facts.targetType, facts.targetId),
                           facts.targetType, facts.targetId, facts.amountMinor, facts.currency,
                           action, status, needsApproval);
    }
  }

  /** The proposal that carries a routing: it names its target and copies its money. */
  function ProposalFor(policy: RecoveryPolicy, decisionVersion: string, ctx: Context, r: Routing): Proposal {
    Proposal(decisionVersion, policy.policyVersion,
             DeriveProposalId(decisionVersion, policy.policyVersion, ctx.facts.targetType, ctx.facts.targetId),
             ctx.facts.targetType, ctx.facts.targetId, ctx.facts.amountMinor, ctx.facts.currency,
             r.action, r.status, r.needsApproval)
  }

  // ---------------------------------------------------------------------------
  // Agent and gateway
  // ---------------------------------------------------------------------------

  /** Agent and gateway were configured with the same limits. */
  predicate PoliciesMatch(policy: RecoveryPolicy, env: Env) {
    && policy.policyVersion == POLICY_VERSION == env.config.policyVersion
    && env.config.gatewayVersion == GATEWAY_VERSION
    && policy.maxRetryAttempts == env.policy.maxTargetAttempts
    && policy.highValueThresholdMinor == env.config.highValueThresholdMinor
    && policy.blockedDeclineCodes == env.policy.blockedDeclineCodes
  }

  lemma DefaultPoliciesMatch(limits: Limits)
    ensures PoliciesMatch(DEFAULT_RECOVERY_POLICY, Env(DEFAULT_GATEWAY_CONFIG, DEFAULT_GATEWAY_POLICY, limits))
  {
  }

  /** Nothing but the merits of the proposal decides: a working gateway with no verdict
      stored for a target that is a payment or subscription with a positive amount. */
  predicate OnItsMerits(env: Env, st: GatewayState, call: Call) {
    var t := call.target;
    && call.fault !in {1, 2, 3, 4, 5, 6, 7, 8, 9, 10}
    && !st.kill.Engaged()
    && t.targetType in VALID_TARGET_TYPES && t.amountMinor > 0
    && PrimaryKeyOf(env, call.proposal) !in st.primary && KeyOf(t) !in st.targets
    && !Limited(env.limits, st.limiter, KeyOf(t), Some(t.customerId), call.now)
  }

  /** The agent's proposal, judged for the very target it was made for, with any approval
      record or none. */
  predicate Submits(policy: RecoveryPolicy, ctx: Context, r: Routing, call: Call) {
    call.target == ctx.facts && call.proposal == ProposalFor(policy, DECISION_VERSION, ctx, r)
  }

  /** The failure code rules out automation although the agent proposed it. */
  predicate GatewayKnowsBetter(env: Env, ctx: Context, action: Action) {
    || InCodes(ctx.facts.latestFailureCode, env.policy.unrecoverableFraudCodes)
    || (action == RetryPayment && ctx.facts.successRateBps < env.policy.minReliableSuccessRateBps
        && InCodes(ctx.facts.latestFailureCode, env.policy.blockedDeclineCodes))
  }

  /** The gateway's whole verdict on the agent's proposal. It follows the agent's status in
      every case but one, the failure codes of stage 8, and no approval record matters. */
  lemma GatewayFollowsAgent(policy: RecoveryPolicy, env: Env, st: GatewayState, ctx: Context, r: Routing, call: Call)
    requires PoliciesMatch(policy, env) && OnItsMerits(env, st, call)
    requires Routes(policy, ctx, r) && Submits(policy, ctx, r, call)
    ensures Judge(env, st, call) ==
              if r.action == HumanReview then Stop(6, RequiresReview, MissingHumanApproval)
              else if r.action == NoAction then Stop(6, Blocked, NonExecutableAction)
              else if GatewayKnowsBetter(env, ctx, r.action) then Stop(8, Blocked, UnresolvedHardDecline)
              else Verdict(10, Approved, ApprovedForExecutionLayer, true, false)
  {
  }

  /** The gateway approves exactly the proposals with status PROPOSED that stage 8 lets pass. */
  lemma ApprovedExactlyWhenProposed(policy: RecoveryPolicy, env: Env, st: GatewayState, ctx: Context, r: Routing,
                                    call: Call)
    requires PoliciesMatch(policy, env) && OnItsMerits(env, st, call)
    requires Routes(policy, ctx, r) && Submits(policy, ctx, r, call)
    ensures Evaluate(env, st, call).1.decision == Approved
            <==> r.status == Proposed && CheckFailureCategory(call.proposal, call.target, env.policy).None?
    ensures CheckFailureCategory(call.proposal, call.target, env.policy).Some?
            <==> GatewayKnowsBetter(env, ctx, r.action)
  {
    hide DeriveProposalId, Judge, OnItsMerits;
    GatewayFollowsAgent(policy, env, st, ctx, r, call);
  }

  /** Under the default policies the two disagree on a PROPOSED proposal exactly for the
      three fraud codes, and for an immediate retry that the AI suggested against a
      "generic_decline" of a customer below 7500 basis points. */
  lemma DisagreementUnderDefaults(limits: Limits, ctx: Context, r: Routing)
    requires Routes(DEFAULT_RECOVERY_POLICY, ctx, r) && r.status == Proposed
    ensures GatewayKnowsBetter(Env(DEFAULT_GATEWAY_CONFIG, DEFAULT_GATEWAY_POLICY, limits), ctx, r.action)
            <==> ctx.facts.latestFailureCode in {Some("suspected_fraud"), Some("stolen_card"), Some("lost_card")}
                 || (r.action == RetryPayment && Diagnosed(ctx, TransientSystemError)
                     && ctx.facts.latestFailureCode == Some("generic_decline") && ctx.facts.successRateBps < 7500)
  {
  }

  /** No approval record changes the verdict, so a high-value target is never approved
      through the agent, with or without a human's consent. */
  lemma ApprovalRecordsDoNotMatter(policy: RecoveryPolicy, env: Env, st: GatewayState, ctx: Context, r: Routing,
                                   call: Call, other: Option<Approval>)
    requires PoliciesMatch(policy, env) && OnItsMerits(env, st, call)
    requires Routes(policy, ctx, r) && Submits(policy, ctx, r, call)
    ensures Judge(env, st, call) == Judge(env, st, call.(approval := other))
    ensures ctx.facts.amountMinor >= env.config.highValueThresholdMinor ==> Judge(env, st, call).decision != Approved
  {
  }
}
