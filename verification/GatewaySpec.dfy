/** The safety gateway as a function of its state: what one `evaluate_proposal` call
    decides, what it writes, and how a run of calls and operator actions unfolds. */
module GatewaySpec {
  import opened Identity
  import opened Domain
  import opened Checks
  import opened RateLimit

  datatype PrimaryKey = PrimaryKey(proposalId: Uuid, gatewayVersion: string, policyVersion: string)

  datatype TargetEntry = TargetEntry(proposalId: Uuid, action: Action, amountMinor: int, result: GatewayResult)

  datatype KillSwitchState = KillSwitchState(active: bool, corrupted: bool) {
    predicate Engaged() { corrupted || active }
  }

  datatype GatewayState = GatewayState(
    primary: map<PrimaryKey, GatewayResult>,
    targets: map<TargetKey, TargetEntry>,
    limiter: LimiterState,
    kill: KillSwitchState,
    log: seq<AuditRecord>)

  datatype Env = Env(config: GatewayConfig, policy: GatewayPolicy, limits: Limits)

  /** One evaluation request. `reference` is the fresh audit id. `fault` is the number of
      the stage whose component raises an unexpected exception; any number outside 1..10
      means that none does. */
  datatype Call = Call(
    proposal: Proposal,
    target: Target,
    approval: Option<Approval>,
    now: int,
    reference: Uuid,
    fault: nat)

  /** How far a call got and how it ended. `stage` counts the checks evaluated. */
  datatype Verdict = Verdict(stage: nat, decision: Decision, reason: Reason, eligible: bool, isReplay: bool)

  function Stop(stage: nat, decision: Decision, reason: Reason): Verdict {
    Verdict(stage, decision, reason, false, false)
  }

  function FailClosed(stage: nat): Verdict {
    Stop(stage, InvalidProposal, GatewayConfigurationError)
  }

  function PrimaryKeyOf(env: Env, proposal: Proposal): PrimaryKey {
    PrimaryKey(proposal.proposalId, env.config.gatewayVersion, env.config.policyVersion)
  }

  /** Stages 1 to 4. */
  function Intake(env: Env, st: GatewayState, call: Call): Option<Verdict> {
    var p, t := call.proposal, call.target;
    if call.fault == 1 then Some(FailClosed(1))
    else if st.kill.Engaged() then Some(Stop(1, KillSwitchActive, KillSwitchEngaged))
    else if call.fault == 2 then Some(FailClosed(2))
    else if CheckSchemaAndVersion(p, t, env.config).Some? then
      Some(Stop(2, InvalidProposal, CheckSchemaAndVersion(p, t, env.config).value))
    else if call.fault == 3 then Some(FailClosed(3))
    else if CheckProposalIdentity(p, t).Some? then Some(Stop(3, InvalidProposal, CheckProposalIdentity(p, t).value))
    else if call.fault == 4 then Some(FailClosed(4))
    else if CheckFinancialIntegrity(p, t).Some? then
      Some(Stop(4, InvalidProposal, CheckFinancialIntegrity(p, t).value))
    else None
  }

  function ReplayOf(existing: GatewayResult): Verdict {
    Verdict(5, existing.decision,
            if existing.decision == Approved then IdempotentReplayApproved else IdempotentReplayBlocked,
            existing.eligible, true)
  }

  /** The rule for a second proposal, with a different id, for a target that was approved. */
  predicate TargetConflict(targets: map<TargetKey, TargetEntry>, key: TargetKey, proposalId: Uuid, action: Action,
                           amount: int) {
    key in targets
    && targets[key].proposalId != proposalId
    && targets[key].result.decision == Approved
    && (targets[key].action != action || targets[key].amountMinor != amount)
  }

  /** Stage 5. */
  function ReplayStage(env: Env, st: GatewayState, call: Call): Option<Verdict> {
    var p, key := call.proposal, KeyOf(call.target);
    var primaryKey := PrimaryKeyOf(env, p);
    if call.fault == 5 then Some(FailClosed(5))
    else if primaryKey in st.primary then
      if key in st.targets && (st.targets[key].action != p.action || st.targets[key].amountMinor != p.amountMinor) then
        Some(Stop(5, Blocked, ConflictingProposalForTarget))
      else
        Some(ReplayOf(st.primary[primaryKey]))
    else if TargetConflict(st.targets, key, p.proposalId, p.action, p.amountMinor) then
      Some(Stop(5, Blocked, ConflictingProposalForTarget))
    else None
  }

  /** Stages 6 to 9. */
  function PolicyStages(env: Env, call: Call): Option<Verdict> {
    var p, t := call.proposal, call.target;
    if call.fault == 6 then Some(FailClosed(6))
    else if CheckActionAllowlist(p).Some? then
      Some(Stop(6, if p.action == HumanReview then RequiresReview else Blocked, CheckActionAllowlist(p).value))
    else if call.fault == 7 then Some(FailClosed(7))
    else if CheckRetryAndChronic(t, env.policy).Some? then
      Some(Stop(7, Blocked, CheckRetryAndChronic(t, env.policy).value))
    else if call.fault == 8 then Some(FailClosed(8))
    else if CheckFailureCategory(p, t, env.policy).Some? then
      Some(Stop(8, Blocked, CheckFailureCategory(p, t, env.policy).value))
    else if call.fault == 9 then Some(FailClosed(9))
    else if CheckHumanApproval(p, t, env.config, call.approval).Some? then
      Some(Stop(9, RequiresReview, CheckHumanApproval(p, t, env.config, call.approval).value))
    else None
  }

  /** Stage 10 and the final authorization. */
  function RateStage(env: Env, st: GatewayState, call: Call): Verdict {
    if call.fault == 10 then FailClosed(10)
    else if Limited(env.limits, st.limiter, KeyOf(call.target), Some(call.target.customerId), call.now) then
      Stop(10, RateLimited, RateLimitExceeded)
    else
      Verdict(10, Approved, ApprovedForExecutionLayer, true, false)
  }

  function Judge(env: Env, st: GatewayState, call: Call): Verdict {
    var intake := Intake(env, st, call);
    if intake.Some? then intake.value
    else
      var replay := ReplayStage(env, st, call);
      if replay.Some? then replay.value
      else
        var policy := PolicyStages(env, call);
        if policy.Some? then policy.value else RateStage(env, st, call)
  }

  function ResultOf(env: Env, call: Call, v: Verdict): GatewayResult
    requires 1 <= v.stage <= 10
  {
    GatewayResult(v.decision, call.proposal.proposalId, call.target.targetType, call.target.targetId, v.reason,
                  env.config.policyVersion, env.config.gatewayVersion, env.config.decisionVersion,
                  CHECKS[..v.stage], if v.decision == Approved && !v.isReplay then CHECKS else CHECKS[..v.stage - 1],
                  call.reference, v.eligible, v.isReplay)
  }

  function AuditOf(call: Call, r: GatewayResult): AuditRecord {
    AuditRecord(r.reference, call.now, r.proposalId, r.targetType, r.targetId,
                call.target.customerId, call.target.amountMinor, call.target.currency, call.proposal.action,
                r.decision, r.reason, r.policyVersion, r.gatewayVersion, r.decisionVersion,
                r.checksEvaluated, r.checksPassed, r.eligible, r.isReplay)
  }

  /** A fresh decision of stages 6 to 12 is remembered; rate limiting and failures are not. */
  predicate Remembered(v: Verdict) {
    v.stage >= 6 && v.decision in {Approved, Blocked, RequiresReview}
  }

  predicate FreshApproval(v: Verdict) {
    v.decision == Approved && !v.isReplay
  }

  function LimiterAfter(env: Env, limiter: LimiterState, call: Call, v: Verdict): LimiterState {
    var key, customer := KeyOf(call.target), Some(call.target.customerId);
    if v.stage == 10 && v.decision == RateLimited then
      Pruned(env.limits, limiter, key, customer, call.now)
    else if FreshApproval(v) then
      Recorded(Pruned(env.limits, limiter, key, customer, call.now), key, customer, call.now)
    else
      limiter
  }

  /** Which stages each part of the pipeline stops at, and what it may decide there. */
  lemma PartStages(env: Env, st: GatewayState, call: Call)
    ensures var v := Intake(env, st, call);
            v.Some? ==> 1 <= v.value.stage <= 4 && !v.value.isReplay
                        && v.value.decision in {InvalidProposal, KillSwitchActive}
    ensures var v := ReplayStage(env, st, call);
            v.Some? ==> v.value.stage == 5 && (!v.value.isReplay ==> v.value.decision in {InvalidProposal, Blocked})
    ensures var v := PolicyStages(env, call);
            v.Some? ==> 6 <= v.value.stage <= 9 && !v.value.isReplay
                        && v.value.decision in {InvalidProposal, Blocked, RequiresReview}
    ensures var v := RateStage(env, st, call);
            v.stage == 10 && !v.isReplay && v.decision in {InvalidProposal, RateLimited, Approved}
  {
  }

  lemma JudgeStageInRange(env: Env, st: GatewayState, call: Call)
    ensures 1 <= Judge(env, st, call).stage <= 10
  {
  }

  function Evaluate(env: Env, st: GatewayState, call: Call): (GatewayState, GatewayResult) {
    var v := Judge(env, st, call);
    JudgeStageInRange(env, st, call);
    var r := ResultOf(env, call, v);
    (GatewayState(
       if Remembered(v) then st.primary[PrimaryKeyOf(env, call.proposal) := r] else st.primary,
       if Remembered(v)
       then st.targets[KeyOf(call.target) :=
           TargetEntry(call.proposal.proposalId, call.proposal.action, call.target.amountMinor, r)]
       else st.targets,
       LimiterAfter(env, st.limiter, call, v),
       st.kill,
       st.log + [AuditOf(call, r)]),
     r)
  }

  // ---------------------------------------------------------------------------
  // Runs
  // ---------------------------------------------------------------------------

  datatype Event = EvaluateCall(call: Call) | ActivateSwitch | DeactivateSwitch | CorruptSwitch | ClearStore

  const FRESH := GatewayState(map[], map[], LimiterState(map[], map[]), KillSwitchState(false, false), [])

  function Step(env: Env, st: GatewayState, e: Event): GatewayState {
    match e
    case EvaluateCall(call) => Evaluate(env, st, call).0
    case ActivateSwitch => st.(kill := st.kill.(active := true))
    case DeactivateSwitch => st.(kill := if st.kill.corrupted then st.kill else st.kill.(active := false))
    case CorruptSwitch => st.(kill := KillSwitchState(true, true))
    case ClearStore => st.(primary := map[], targets := map[])
  }

  function Run(env: Env, events: seq<Event>): GatewayState {
    if events == [] then FRESH
    else Step(env, Run(env, events[..|events| - 1]), events[|events| - 1])
  }

  predicate NoClears(events: seq<Event>) {
    forall i :: 0 <= i < |events| ==> !events[i].ClearStore?
  }

  function Batch(env: Env, st: GatewayState, calls: seq<Call>): (r: (GatewayState, seq<GatewayResult>))
    ensures |r.1| == |calls|
  {
    if calls == [] then (st, [])
    else
      var before := Batch(env, st, calls[..|calls| - 1]);
      var last := Evaluate(env, before.0, calls[|calls| - 1]);
      (last.0, before.1 + [last.1])
  }
}
