/** What holds of the safety gateway over every run of calls and operator actions. */
module GatewayRuns {
  import opened Identity
  import opened Domain
  import opened Checks
  import opened RateLimit
  import opened GatewaySpec
  import opened Sequences

  // ---------------------------------------------------------------------------
  // When a call is approved
  // ---------------------------------------------------------------------------

  /** The approval record is for this very proposal and target, says yes, and names someone. */
  predicate Covers(approval: Approval, p: Proposal) {
    && approval.proposalId == p.proposalId && approval.targetId == p.targetId && approval.approved
    && exists i :: 0 <= i < |approval.approvedBy| && approval.approvedBy[i] !in WHITE_SPACE
  }

  /** The characters that `str.strip` removes. */
  const WHITE_SPACE: set<char> := {
    '\U{9}', '\U{A}', '\U{B}', '\U{C}', '\U{D}', '\U{1C}', '\U{1D}', '\U{1E}', '\U{1F}', ' ', '\U{85}', '\U{A0}',
    '\U{1680}', '\U{2000}', '\U{2001}', '\U{2002}', '\U{2003}', '\U{2004}', '\U{2005}', '\U{2006}', '\U{2007}',
    '\U{2008}', '\U{2009}', '\U{200A}', '\U{2028}', '\U{2029}', '\U{202F}', '\U{205F}', '\U{3000}'}

  lemma SpacesAre(c: char)
    ensures IsSpace(c) <==> c in WHITE_SPACE
  {
  }

  lemma CoversExactly(p: Proposal, approval: Approval)
    ensures ApprovalMatches(p, approval) <==> Covers(approval, p)
  {
    hide IsSpace, WHITE_SPACE;
    forall i | 0 <= i < |approval.approvedBy|
      ensures IsSpace(approval.approvedBy[i]) <==> approval.approvedBy[i] in WHITE_SPACE
    {
      SpacesAre(approval.approvedBy[i]);
    }
  }

  /** What stage 1, .., 10 demands, each on its own. A component that fails does not pass its stage. */
  predicate Demand(env: Env, st: GatewayState, call: Call, stage: nat) {
    var p, t := call.proposal, call.target;
    call.fault != stage
    && match stage
       case 1 => !st.kill.active && !st.kill.corrupted
       case 2 =>
         && p.decisionVersion == DECISION_VERSION && p.policyVersion == POLICY_VERSION
         && env.config.policyVersion == POLICY_VERSION && env.config.gatewayVersion == GATEWAY_VERSION
         && (t.targetType == "payment" || t.targetType == "subscription")
       case 3 =>
         && p.targetId == t.targetId && p.targetType == t.targetType
         && p.proposalId == DeriveProposalId(p.decisionVersion, p.policyVersion, t.targetType, t.targetId)
       case 4 => t.amountMinor > 0 && p.amountMinor == t.amountMinor && p.currency == t.currency
       case 5 =>
         && PrimaryKeyOf(env, p) !in st.primary
         && !TargetConflict(st.targets, KeyOf(t), p.proposalId, p.action, p.amountMinor)
       case 6 => p.action != NoAction && p.action != HumanReview
       case 7 =>
         && t.attemptCount <= env.policy.maxTargetAttempts
         && !(t.historyCount >= 3 && t.successRateBps < 2500 && t.latestFailureCode.Some?
              && t.latestFailureCode.value in env.policy.blockedDeclineCodes)
       case 8 =>
         t.latestFailureCode.Some? ==>
           && t.latestFailureCode.value !in env.policy.unrecoverableFraudCodes
           && !(p.action == RetryPayment && t.latestFailureCode.value in env.policy.blockedDeclineCodes
                && t.successRateBps < env.policy.minReliableSuccessRateBps)
       case 9 =>
         t.amountMinor >= env.config.highValueThresholdMinor || p.requiresHumanApproval || p.action == HumanReview ==>
           call.approval.Some? && Covers(call.approval.value, p)
       case 10 => !Limited(env.limits, st.limiter, KeyOf(t), Some(t.customerId), call.now)
       case _ => true
  }

  /** The pipeline stops at the first stage whose demand is not met, and nowhere else. */
  lemma StopsAtFirstFailure(env: Env, st: GatewayState, call: Call)
    ensures var v := Judge(env, st, call);
            && (forall stage :: 1 <= stage < v.stage ==> Demand(env, st, call, stage))
            && (Demand(env, st, call, v.stage) <==> FreshApproval(v))
            && (FreshApproval(v) ==> v.stage == 10)
  {
    hide TargetConflict, ChronicFailure, Limited, DeriveProposalId, Covers, ApprovalMatches;
    IntakeStops(env, st, call);
    if Intake(env, st, call).None? {
      PolicyStops(env, call, st);
      hide Intake, PolicyStages;
      PartStages(env, st, call);
    }
  }

  lemma IntakeStops(env: Env, st: GatewayState, call: Call)
    ensures var v := Intake(env, st, call);
            if v.Some? then
              1 <= v.value.stage <= 4 && !FreshApproval(v.value) && !Demand(env, st, call, v.value.stage)
              && forall stage :: 1 <= stage < v.value.stage ==> Demand(env, st, call, stage)
            else forall stage :: 1 <= stage < 5 ==> Demand(env, st, call, stage)
  {
  }

  lemma PolicyStops(env: Env, call: Call, st: GatewayState)
    ensures var v := PolicyStages(env, call);
            if v.Some? then
              6 <= v.value.stage <= 9 && !FreshApproval(v.value) && !Demand(env, st, call, v.value.stage)
              && forall stage :: 6 <= stage < v.value.stage ==> Demand(env, st, call, stage)
            else forall stage :: 6 <= stage < 10 ==> Demand(env, st, call, stage)
  {
    if call.approval.Some? {
      CoversExactly(call.proposal, call.approval.value);
    }
    hide ApprovalMatches, Covers;
  }

  /** A call is approved afresh exactly when all ten demands are met. */
  lemma FreshApprovalExactly(env: Env, st: GatewayState, call: Call)
    ensures FreshApproval(Judge(env, st, call)) <==> forall stage :: 1 <= stage <= 10 ==> Demand(env, st, call, stage)
  {
    hide Judge, Demand;
    JudgeStageInRange(env, st, call);
    StopsAtFirstFailure(env, st, call);
  }

  /** A human's consent counts only for its own proposal and target: with the other nine
      demands met, a call that needs consent is approved if and only if it carries a record
      of this proposal and this target that says yes and is signed. */
  lemma ConsentExactly(env: Env, st: GatewayState, call: Call)
    requires forall stage :: 1 <= stage <= 10 && stage != 9 ==> Demand(env, st, call, stage)
    requires call.fault != 9
    ensures var p, a := call.proposal, call.approval;
            var needed := call.target.amountMinor >= env.config.highValueThresholdMinor || p.requiresHumanApproval;
            && (FreshApproval(Judge(env, st, call)) <==>
                  needed ==>
                    && a.Some? && a.value.proposalId == p.proposalId && a.value.targetId == p.targetId
                       && a.value.approved
                    && exists i :: 0 <= i < |a.value.approvedBy| && a.value.approvedBy[i] !in WHITE_SPACE)
            && (!FreshApproval(Judge(env, st, call)) ==>
                  Judge(env, st, call)
                  == Stop(9, RequiresReview,
                          if a.Some? then InvalidHumanApproval
                          else if call.target.amountMinor >= env.config.highValueThresholdMinor
                              then HighValueRequiresReview
                          else MissingHumanApproval))
  {
    FreshApprovalExactly(env, st, call);
    assert Demand(env, st, call, 6);
    assert Demand(env, st, call, 9) <==> FreshApproval(Judge(env, st, call));
    ReasonsExactly(env, st, call);
    StopsAtFirstFailure(env, st, call);
    NotReplayed(env, st, call);
    hide Judge, WHITE_SPACE;
  }

  /** Only stage 5 replays, and only when its demand fails. */
  lemma NotReplayed(env: Env, st: GatewayState, call: Call)
    ensures var v := Judge(env, st, call);
            && (v.stage != 5 ==> !v.isReplay)
            && (v.isReplay || FreshApproval(v) || v == Stop(v.stage, v.decision, v.reason))
  {
    hide Intake, PolicyStages, RateStage, TargetConflict;
    PartStages(env, st, call);
    StopsPlainly(env, st, call);
  }

  lemma StopsPlainly(env: Env, st: GatewayState, call: Call)
    ensures var v := Intake(env, st, call);
            v.Some? ==> v.value == Stop(v.value.stage, v.value.decision, v.value.reason)
    ensures var v := PolicyStages(env, call);
            v.Some? ==> v.value == Stop(v.value.stage, v.value.decision, v.value.reason)
    ensures var v := RateStage(env, st, call);
            v.decision != Approved ==> v == Stop(v.stage, v.decision, v.reason)
  {
  }

  /** What a call is told that stops at a stage without being a replay or an approval. */
  function Told(env: Env, call: Call, stage: nat): (Decision, Reason) {
    var p, t := call.proposal, call.target;
    if call.fault == stage then (InvalidProposal, GatewayConfigurationError)
    else
      match stage
      case 1 => (KillSwitchActive, KillSwitchEngaged)
      case 2 =>
        (InvalidProposal,
         if p.decisionVersion == DECISION_VERSION && p.policyVersion == POLICY_VERSION
            && env.config.policyVersion == POLICY_VERSION && env.config.gatewayVersion != GATEWAY_VERSION
         then GatewayConfigurationError else SchemaValidationFailed)
      case 3 => (InvalidProposal, ProposalIdentityMismatch)
      case 4 =>
        (InvalidProposal,
         if t.amountMinor <= 0 || p.amountMinor <= 0 then InvalidFinancialUnit
         else if t.amountMinor != p.amountMinor then AmountMismatch else CurrencyMismatch)
      case 5 => (Blocked, ConflictingProposalForTarget)
      case 6 =>
        if p.action == NoAction then (Blocked, NonExecutableAction) else (RequiresReview, MissingHumanApproval)
      case 7 =>
        (Blocked, if t.attemptCount > env.policy.maxTargetAttempts then RetryLimitExceeded else ChronicFailureInvariant)
      case 8 => (Blocked, UnresolvedHardDecline)
      case 9 =>
        (RequiresReview,
         if call.approval.Some? then InvalidHumanApproval
         else if t.amountMinor >= env.config.highValueThresholdMinor then HighValueRequiresReview
         else MissingHumanApproval)
      case _ => (RateLimited, RateLimitExceeded)
  }

  /** Every refusal gives the decision and the reason of the first demand that is not met. */
  lemma ReasonsExactly(env: Env, st: GatewayState, call: Call)
    ensures var v := Judge(env, st, call);
            FreshApproval(v) || v.isReplay || (v.decision, v.reason) == Told(env, call, v.stage)
  {
    hide DeriveProposalId, TargetConflict, Limited, ApprovalMatches, ChronicFailure;
    IntakeTold(env, st, call);
    PolicyTold(env, call);
    PartStages(env, st, call);
    hide Intake, PolicyStages;
  }

  lemma IntakeTold(env: Env, st: GatewayState, call: Call)
    ensures var v := Intake(env, st, call);
            v.Some? ==> (v.value.decision, v.value.reason) == Told(env, call, v.value.stage)
  {
    hide DeriveProposalId;
  }

  lemma PolicyTold(env: Env, call: Call)
    ensures var v := PolicyStages(env, call);
            v.Some? ==> (v.value.decision, v.value.reason) == Told(env, call, v.value.stage)
  {
    hide ApprovalMatches;
  }

  /** What a caller is answered and what the audit log says of it, field by field. */
  lemma AnswerAndRecordTell(env: Env, st: GatewayState, call: Call)
    ensures var v, (after, r) := Judge(env, st, call), Evaluate(env, st, call);
            && r.decision == v.decision && r.reason == v.reason && r.eligible == v.eligible && r.isReplay == v.isReplay
            && r.proposalId == call.proposal.proposalId
            && r.targetType == call.target.targetType && r.targetId == call.target.targetId
            && r.policyVersion == env.config.policyVersion && r.gatewayVersion == env.config.gatewayVersion
            && r.decisionVersion == env.config.decisionVersion && r.reference == call.reference
            && |r.checksEvaluated| == v.stage && r.checksEvaluated <= CHECKS && r.checksPassed <= CHECKS
            && |r.checksPassed| == (if FreshApproval(v) then 10 else v.stage - 1)
            && |after.log| == |st.log| + 1 && st.log <= after.log
            && var a := after.log[|st.log|];
               && a.reference == call.reference && a.evaluatedAt == call.now && a.action == call.proposal.action
               && a.customerId == call.target.customerId
               && a.amountMinor == call.target.amountMinor && a.currency == call.target.currency
               && ResultFromAudit(a) == r
  {
    hide Judge;
    JudgeStageInRange(env, st, call);
    StopsAtFirstFailure(env, st, call);
    assert CHECKS[..10] == CHECKS;
    hide Demand;
  }

  // ---------------------------------------------------------------------------
  // The two indexes
  // ---------------------------------------------------------------------------

  function IdFor(key: TargetKey): Uuid {
    DeriveProposalId(DECISION_VERSION, POLICY_VERSION, key.targetType, key.targetId)
  }

  function StoredKey(key: TargetKey): PrimaryKey {
    PrimaryKey(IdFor(key), GATEWAY_VERSION, POLICY_VERSION)
  }

  lemma StoredKeyIdentifiesTarget(k1: TargetKey, k2: TargetKey)
    requires StoredKey(k1) == StoredKey(k2)
    ensures k1 == k2
  {
    hide DeriveProposalId;
    ProposalIdIdentifiesTarget(DECISION_VERSION, POLICY_VERSION, k1.targetType, k1.targetId,
                               k2.targetType, k2.targetId);
  }

  /** The result stored for a target is its own, is a terminal verdict, and only an
      approval of an executable action for a positive amount makes it eligible. */
  predicate GoodEntry(key: TargetKey, entry: TargetEntry) {
    && key.targetType in VALID_TARGET_TYPES
    && entry.proposalId == IdFor(key) == entry.result.proposalId
    && KeyOfResult(entry.result) == key
    && entry.amountMinor > 0
    && !entry.result.isReplay
    && entry.result.decision in {Approved, Blocked, RequiresReview}
    && entry.result.eligible == (entry.result.decision == Approved)
    && (entry.result.decision == Approved ==> entry.action in EXECUTABLE_ACTIONS)
  }

  /** A primary entry exists exactly when its target's entry exists, with the same result. */
  ghost predicate IndexesAgree(primary: map<PrimaryKey, GatewayResult>, targets: map<TargetKey, TargetEntry>) {
    && (forall key :: key in targets ==>
          GoodEntry(key, targets[key])
          && StoredKey(key) in primary && primary[StoredKey(key)] == targets[key].result)
    && (forall pk :: pk in primary ==> KeyOfResult(primary[pk]) in targets && StoredKey(KeyOfResult(primary[pk])) == pk)
  }

  function KeyOfResult(r: GatewayResult): TargetKey {
    TargetKey(r.targetType, r.targetId)
  }

  lemma InsertKeepsIndexes(primary: map<PrimaryKey, GatewayResult>, targets: map<TargetKey, TargetEntry>,
                           key: TargetKey, entry: TargetEntry)
    requires IndexesAgree(primary, targets)
    requires key !in targets && GoodEntry(key, entry)
    ensures IndexesAgree(primary[StoredKey(key) := entry.result], targets[key := entry])
  {
    hide DeriveProposalId;
    forall other | other in targets ensures StoredKey(other) != StoredKey(key) {
      if StoredKey(other) == StoredKey(key) {
        StoredKeyIdentifiesTarget(other, key);
      }
    }
  }

  lemma IntakeFacts(env: Env, st: GatewayState, call: Call)
    requires Intake(env, st, call).None?
    ensures PrimaryKeyOf(env, call.proposal) == StoredKey(KeyOf(call.target))
    ensures call.proposal.proposalId == IdFor(KeyOf(call.target))
    ensures call.target.targetType in VALID_TARGET_TYPES && call.proposal.targetType == call.target.targetType
    ensures call.proposal.targetId == call.target.targetId
    ensures 0 < call.target.amountMinor == call.proposal.amountMinor
    ensures call.proposal.currency == call.target.currency
    ensures call.proposal.decisionVersion == DECISION_VERSION && call.proposal.policyVersion == POLICY_VERSION
    ensures env.config.gatewayVersion == GATEWAY_VERSION && env.config.policyVersion == POLICY_VERSION
  {
  }

  /** Past stage 4, the two indexes give one answer, so the rule for a differing proposal
      id never fires through the gateway. */
  lemma TargetConflictNeverFires(env: Env, st: GatewayState, call: Call)
    requires IndexesAgree(st.primary, st.targets) && Intake(env, st, call).None?
    ensures PrimaryKeyOf(env, call.proposal) in st.primary <==> KeyOf(call.target) in st.targets
    ensures !TargetConflict(st.targets, KeyOf(call.target), call.proposal.proposalId,
                            call.proposal.action, call.proposal.amountMinor)
  {
    IntakeFacts(env, st, call);
    var key := KeyOf(call.target);
    if StoredKey(key) in st.primary {
      StoredKeyIdentifiesTarget(KeyOfResult(st.primary[StoredKey(key)]), key);
    }
  }

  /** A verdict is only ever stored for a target that has none yet. */
  lemma RememberedIsNew(env: Env, st: GatewayState, call: Call)
    requires IndexesAgree(st.primary, st.targets) && Remembered(Judge(env, st, call))
    ensures KeyOf(call.target) !in st.targets
    ensures PrimaryKeyOf(env, call.proposal) == StoredKey(KeyOf(call.target))
    ensures GoodEntry(KeyOf(call.target), EntryFor(env, st, call))
  {
    hide DeriveProposalId, Limited, TargetConflict;
    assert Intake(env, st, call).None? && ReplayStage(env, st, call).None?;
    IntakeFacts(env, st, call);
    TargetConflictNeverFires(env, st, call);
  }

  function EntryFor(env: Env, st: GatewayState, call: Call): TargetEntry {
    TargetEntry(call.proposal.proposalId, call.proposal.action, call.target.amountMinor, Evaluate(env, st, call).1)
  }

  lemma {:induction false} StepKeepsIndexes(env: Env, st: GatewayState, e: Event)
    requires IndexesAgree(st.primary, st.targets)
    ensures IndexesAgree(Step(env, st, e).primary, Step(env, st, e).targets)
    ensures !e.ClearStore? ==> forall key :: key in st.targets ==>
              key in Step(env, st, e).targets && Step(env, st, e).targets[key] == st.targets[key]
  {
    if e.EvaluateCall? && Remembered(Judge(env, st, e.call)) {
      RememberedIsNew(env, st, e.call);
      InsertKeepsIndexes(st.primary, st.targets, KeyOf(e.call.target), EntryFor(env, st, e.call));
    }
  }

  lemma {:induction false} IndexesAgreeAlways(env: Env, events: seq<Event>)
    ensures IndexesAgree(Run(env, events).primary, Run(env, events).targets)
  {
    if events != [] {
      var n := |events| - 1;
      IndexesAgreeAlways(env, events[..n]);
      StepKeepsIndexes(env, Run(env, events[..n]), events[n]);
    }
  }

  // ---------------------------------------------------------------------------
  // Verdicts are sticky
  // ---------------------------------------------------------------------------

  lemma RunSplits(env: Env, earlier: seq<Event>, later: seq<Event>)
    requires later != []
    ensures Run(env, earlier + later) == Step(env, Run(env, earlier + later[..|later| - 1]), later[|later| - 1])
  {
    LastOfBoth(earlier, later);
  }

  /** Without store clears, whatever is stored for a target stays stored, unchanged. */
  lemma {:induction false} VerdictsAreSticky(env: Env, earlier: seq<Event>, later: seq<Event>, key: TargetKey)
    requires NoClears(later)
    requires key in Run(env, earlier).targets
    ensures key in Run(env, earlier + later).targets
    ensures Run(env, earlier + later).targets[key] == Run(env, earlier).targets[key]
  {
    if later == [] {
      assert earlier + later == earlier;
    } else {
      var n := |later| - 1;
      VerdictsAreSticky(env, earlier, later[..n], key);
      RunSplits(env, earlier, later);
      IndexesAgreeAlways(env, earlier + later[..n]);
      StepKeepsIndexes(env, Run(env, earlier + later[..n]), later[n]);
    }
  }

  /** A call that gets past stage 4 for a target with a stored verdict replays that very
      verdict when it asks for the stored action and amount, and is refused otherwise. */
  lemma StoredVerdictDecides(env: Env, st: GatewayState, call: Call)
    requires IndexesAgree(st.primary, st.targets) && KeyOf(call.target) in st.targets
    requires Intake(env, st, call).None? && call.fault != 5
    ensures var entry := st.targets[KeyOf(call.target)];
            Judge(env, st, call) ==
              if entry.action == call.proposal.action && entry.amountMinor == call.proposal.amountMinor
              then Verdict(5, entry.result.decision,
                           if entry.result.decision == Approved then IdempotentReplayApproved
                           else IdempotentReplayBlocked,
                           entry.result.decision == Approved, true)
              else Verdict(5, Blocked, ConflictingProposalForTarget, false, false)
  {
  }

  /** Every approval handed out, fresh or replayed, is the stored approval of its target:
      same action, same amount, eligible, and consistent with the proposal and target. */
  lemma ApprovalsComeFromTheStore(env: Env, st: GatewayState, call: Call)
    requires IndexesAgree(st.primary, st.targets)
    requires Evaluate(env, st, call).1.decision == Approved
    ensures var (after, result) := Evaluate(env, st, call);
            var key := KeyOf(call.target);
            && key in after.targets
            && after.targets[key].result.decision == Approved
            && after.targets[key].action == call.proposal.action
            && after.targets[key].amountMinor == call.proposal.amountMinor == call.target.amountMinor
            && after.targets[key].proposalId == call.proposal.proposalId == result.proposalId
            && result.eligible
            && KeyOf(call.target) == TargetKey(call.proposal.targetType, call.proposal.targetId)
            && KeyOfResult(result) == key
            && call.proposal.proposalId == IdFor(key)
  {
    hide DeriveProposalId, Limited, TargetConflict;
    assert Intake(env, st, call).None?;
    IntakeFacts(env, st, call);
    TargetConflictNeverFires(env, st, call);
    if KeyOf(call.target) in st.targets {
      if call.fault != 5 {
        StoredVerdictDecides(env, st, call);
      }
    }
  }

  // ---------------------------------------------------------------------------
  // The audit log determines the store
  // ---------------------------------------------------------------------------

  function CountCalls(events: seq<Event>): nat {
    if events == [] then 0
    else CountCalls(events[..|events| - 1]) + (if events[|events| - 1].EvaluateCall? then 1 else 0)
  }

  lemma {:induction false} LogOnlyGrows(env: Env, events: seq<Event>, i: nat)
    requires i <= |events|
    ensures Run(env, events[..i]).log <= Run(env, events).log
  {
    if i == |events| {
      assert events[..i] == events;
    } else {
      var n := |events| - 1;
      LogOnlyGrows(env, events[..n], i);
      assert events[..n][..i] == events[..i];
    }
  }

  lemma {:induction false} LogLength(env: Env, events: seq<Event>)
    ensures |Run(env, events).log| == CountCalls(events)
  {
    if events != [] {
      LogLength(env, events[..|events| - 1]);
    }
  }

  /** The log holds one record per evaluation, in call order, and the record of a call is
      exactly the result the caller got. */
  lemma OneRecordPerCall(env: Env, events: seq<Event>, i: nat)
    requires i < |events| && events[i].EvaluateCall?
    ensures |Run(env, events).log| == CountCalls(events) > CountCalls(events[..i])
    ensures Run(env, events).log[CountCalls(events[..i])]
         == AuditOf(events[i].call, Evaluate(env, Run(env, events[..i]), events[i].call).1)
  {
    LogLength(env, events);
    LogLength(env, events[..i]);
    LogOnlyGrows(env, events, i + 1);
    LogLength(env, events[..i + 1]);
    assert events[..i + 1][..i] == events[..i];
  }

  /** The result a caller got, read back from its audit record. */
  function ResultFromAudit(a: AuditRecord): GatewayResult {
    GatewayResult(a.decision, a.proposalId, a.targetType, a.targetId, a.reason, a.policyVersion, a.gatewayVersion,
                  a.decisionVersion, a.checksEvaluated, a.checksPassed, a.reference, a.eligible, a.isReplay)
  }

  /** The records whose verdict was stored. */
  predicate WasStored(a: AuditRecord) {
    !a.isReplay && a.decision in {Approved, Blocked, RequiresReview} && a.reason != ConflictingProposalForTarget
  }

  function KeyOfRecord(a: AuditRecord): TargetKey {
    TargetKey(a.targetType, a.targetId)
  }

  function RebuildPrimary(log: seq<AuditRecord>): map<PrimaryKey, GatewayResult> {
    if log == [] then map[]
    else
      var before, a := RebuildPrimary(log[..|log| - 1]), log[|log| - 1];
      if WasStored(a) then before[PrimaryKey(a.proposalId, a.gatewayVersion, a.policyVersion) := ResultFromAudit(a)]
      else before
  }

  function RebuildTargets(log: seq<AuditRecord>): map<TargetKey, TargetEntry> {
    if log == [] then map[]
    else
      var before, a := RebuildTargets(log[..|log| - 1]), log[|log| - 1];
      if WasStored(a) then
        before[KeyOfRecord(a) := TargetEntry(a.proposalId, a.action, a.amountMinor, ResultFromAudit(a))]
      else before
  }

  lemma StoredExactlyWhenRemembered(env: Env, st: GatewayState, call: Call)
    ensures WasStored(AuditOf(call, Evaluate(env, st, call).1)) <==> Remembered(Judge(env, st, call))
  {
    hide DeriveProposalId, Limited, TargetConflict, Pruned, Recorded;
  }

  /** What a call stores can be read off the record it leaves. */
  lemma StoreMovesByRecord(env: Env, st: GatewayState, call: Call)
    ensures var (after, r) := Evaluate(env, st, call);
            var a := AuditOf(call, r);
            && after.log == st.log + [a]
            && after.primary == (if WasStored(a)
                                 then st.primary[PrimaryKey(a.proposalId, a.gatewayVersion, a.policyVersion) :=
                                     ResultFromAudit(a)]
                                 else st.primary)
            && after.targets == (if WasStored(a)
                                 then st.targets[KeyOfRecord(a) :=
                                     TargetEntry(a.proposalId, a.action, a.amountMinor, ResultFromAudit(a))]
                                 else st.targets)
  {
    StoredExactlyWhenRemembered(env, st, call);
  }

  lemma RebuildAppend(log: seq<AuditRecord>, a: AuditRecord)
    ensures RebuildPrimary(log + [a])
         == (if WasStored(a)
             then RebuildPrimary(log)[PrimaryKey(a.proposalId, a.gatewayVersion, a.policyVersion) := ResultFromAudit(a)]
             else RebuildPrimary(log))
    ensures RebuildTargets(log + [a])
         == (if WasStored(a)
             then RebuildTargets(log)[KeyOfRecord(a) :=
                 TargetEntry(a.proposalId, a.action, a.amountMinor, ResultFromAudit(a))]
             else RebuildTargets(log))
  {
  }

  /** Folding the audit log rebuilds both indexes, after any run without store clears. */
  lemma {:induction false} LogRebuildsStore(env: Env, events: seq<Event>)
    requires NoClears(events)
    ensures RebuildPrimary(Run(env, events).log) == Run(env, events).primary
    ensures RebuildTargets(Run(env, events).log) == Run(env, events).targets
  {
    if events != [] {
      var n := |events| - 1;
      LogRebuildsStore(env, events[..n]);
      if events[n].EvaluateCall? {
        var st, call := Run(env, events[..n]), events[n].call;
        StoreMovesByRecord(env, st, call);
        RebuildAppend(st.log, AuditOf(call, Evaluate(env, st, call).1));
      }
    }
  }

  // ---------------------------------------------------------------------------
  // The audit log determines the limiter
  // ---------------------------------------------------------------------------

  predicate IsFreshApproval(a: AuditRecord) {
    a.decision == Approved && !a.isReplay
  }

  /** The times at which the log shows fresh approvals of a target. */
  function TargetApprovals(log: seq<AuditRecord>, key: TargetKey): seq<int> {
    if log == [] then []
    else
      var a := log[|log| - 1];
      TargetApprovals(log[..|log| - 1], key)
          + (if IsFreshApproval(a) && KeyOfRecord(a) == key then [a.evaluatedAt] else [])
  }

  function CustomerApprovals(log: seq<AuditRecord>, customer: Uuid): seq<int> {
    if log == [] then []
    else
      var a := log[|log| - 1];
      CustomerApprovals(log[..|log| - 1], customer)
      + (if IsFreshApproval(a) && a.customerId == customer then [a.evaluatedAt] else [])
  }

  /** The clock never runs backwards between calls. */
  predicate ClockAscends(events: seq<Event>) {
    forall i, j :: 0 <= i < j < |events| && events[i].EvaluateCall? && events[j].EvaluateCall? ==>
      events[i].call.now <= events[j].call.now
  }

  predicate ClockAtMost(events: seq<Event>, now: int) {
    forall i :: 0 <= i < |events| && events[i].EvaluateCall? ==> events[i].call.now <= now
  }

  ghost predicate LimiterFollowsLog(limits: Limits, limiter: LimiterState, log: seq<AuditRecord>, now: int) {
    && (forall key :: Agree(Times(limiter.targetTimes, key), TargetApprovals(log, key), now - limits.WindowMs()))
    && (forall customer ::
          Agree(Times(limiter.customerTimes, customer), CustomerApprovals(log, customer), now - limits.WindowMs()))
  }

  ghost predicate ApprovalsAdmitted(limits: Limits, log: seq<AuditRecord>) {
    && (forall key :: Admitted(TargetApprovals(log, key), limits.maxPerWindow, limits.WindowMs()))
    && (forall customer :: Admitted(CustomerApprovals(log, customer), limits.maxPerWindow * 3, limits.WindowMs()))
  }

  lemma TargetApprovalsAppend(log: seq<AuditRecord>, a: AuditRecord, key: TargetKey)
    ensures TargetApprovals(log + [a], key)
         == TargetApprovals(log, key) + (if IsFreshApproval(a) && KeyOfRecord(a) == key then [a.evaluatedAt] else [])
  {
  }

  lemma CustomerApprovalsAppend(log: seq<AuditRecord>, a: AuditRecord, customer: Uuid)
    ensures CustomerApprovals(log + [a], customer)
         == CustomerApprovals(log, customer)
             + (if IsFreshApproval(a) && a.customerId == customer then [a.evaluatedAt] else [])
  {
  }

  /** The list a key holds after stage 10, and the history the log then shows for it. */
  lemma AgreeAfterCall(times: seq<int>, times': seq<int>, full: seq<int>, full': seq<int>, from: int, cutoff: int,
                       now: int,
                       looked: bool, recorded: bool)
    requires Agree(times, full, from) && from <= cutoff
    requires times' == (if looked then Since(times, cutoff) else times) + (if recorded then [now] else [])
    requires full' == full + (if recorded then [now] else [])
    ensures Agree(times', full', cutoff)
  {
    var list := if looked then Since(times, cutoff) else times;
    AgreeLater(times, full, from, cutoff);
    AgreeAfterPruning(times, full, from, cutoff);
    assert Agree(list, full, cutoff);
    if recorded {
      AgreeAfterRecording(list, full, cutoff, now);
    } else {
      assert times' == list && full' == full;
    }
  }

  /** What a call does to the limiter, told from the record it leaves in the log. */
  ghost predicate LimiterMoved(limits: Limits, before: LimiterState, after: LimiterState, a: AuditRecord) {
    var key, customer, now := KeyOfRecord(a), Some(a.customerId), a.evaluatedAt;
    var pruned := Pruned(limits, before, key, customer, now);
    if IsFreshApproval(a) then
      !Limited(limits, before, key, customer, now) && after == Recorded(pruned, key, customer, now)
    else after == before || after == pruned
  }

  lemma MovedTargetTimes(limits: Limits, before: LimiterState, after: LimiterState, a: AuditRecord, key: TargetKey)
    returns (looked: bool)
    requires LimiterMoved(limits, before, after, a)
    ensures var times := Times(before.targetTimes, key);
            Times(after.targetTimes, key)
              == (if looked then Since(times, a.evaluatedAt - limits.WindowMs()) else times)
                 + (if IsFreshApproval(a) && KeyOfRecord(a) == key then [a.evaluatedAt] else [])
  {
    looked := (IsFreshApproval(a) || after != before) && key == KeyOfRecord(a);
  }

  lemma MovedCustomerTimes(limits: Limits, before: LimiterState, after: LimiterState, a: AuditRecord, customer: Uuid)
    returns (looked: bool)
    requires LimiterMoved(limits, before, after, a)
    ensures var times := Times(before.customerTimes, customer);
            Times(after.customerTimes, customer)
              == (if looked then Since(times, a.evaluatedAt - limits.WindowMs()) else times)
                 + (if IsFreshApproval(a) && a.customerId == customer then [a.evaluatedAt] else [])
  {
    looked := (IsFreshApproval(a) || after != before) && customer == a.customerId
      && !TargetLimited(limits, before, KeyOfRecord(a), a.evaluatedAt);
  }

  lemma TargetFollows(limits: Limits, before: LimiterState, after: LimiterState, log: seq<AuditRecord>,
                      a: AuditRecord, earlier: int, key: TargetKey)
    requires LimiterFollowsLog(limits, before, log, earlier) && earlier <= a.evaluatedAt
    requires LimiterMoved(limits, before, after, a)
    ensures Agree(Times(after.targetTimes, key), TargetApprovals(log + [a], key), a.evaluatedAt - limits.WindowMs())
  {
    hide *;
    FollowerAgrees(limits, before, log, key, a.customerId, earlier);
    TargetApprovalsAppend(log, a, key);
    var looked := MovedTargetTimes(limits, before, after, a, key);
    AgreeAfterCall(Times(before.targetTimes, key), Times(after.targetTimes, key),
                   TargetApprovals(log, key), TargetApprovals(log + [a], key),
                   earlier - limits.WindowMs(), a.evaluatedAt - limits.WindowMs(), a.evaluatedAt,
                   looked, IsFreshApproval(a) && KeyOfRecord(a) == key);
  }

  lemma CustomerFollows(limits: Limits, before: LimiterState, after: LimiterState, log: seq<AuditRecord>,
                        a: AuditRecord, earlier: int, customer: Uuid)
    requires LimiterFollowsLog(limits, before, log, earlier) && earlier <= a.evaluatedAt
    requires LimiterMoved(limits, before, after, a)
    ensures Agree(Times(after.customerTimes, customer), CustomerApprovals(log + [a], customer),
                  a.evaluatedAt - limits.WindowMs())
  {
    hide *;
    FollowerAgrees(limits, before, log, KeyOfRecord(a), customer, earlier);
    CustomerApprovalsAppend(log, a, customer);
    var looked := MovedCustomerTimes(limits, before, after, a, customer);
    AgreeAfterCall(Times(before.customerTimes, customer), Times(after.customerTimes, customer),
                   CustomerApprovals(log, customer), CustomerApprovals(log + [a], customer),
                   earlier - limits.WindowMs(), a.evaluatedAt - limits.WindowMs(), a.evaluatedAt,
                   looked, IsFreshApproval(a) && a.customerId == customer);
  }

  lemma MoveFollowsLog(limits: Limits, before: LimiterState, after: LimiterState, log: seq<AuditRecord>,
                       a: AuditRecord, earlier: int)
    requires LimiterFollowsLog(limits, before, log, earlier) && earlier <= a.evaluatedAt
    requires LimiterMoved(limits, before, after, a)
    ensures LimiterFollowsLog(limits, after, log + [a], a.evaluatedAt)
  {
    hide LimiterMoved, Agree, TargetApprovals, CustomerApprovals, Times;
    forall key
      ensures Agree(Times(after.targetTimes, key), TargetApprovals(log + [a], key), a.evaluatedAt - limits.WindowMs())
    {
      TargetFollows(limits, before, after, log, a, earlier, key);
    }
    forall customer
      ensures Agree(Times(after.customerTimes, customer), CustomerApprovals(log + [a], customer),
                    a.evaluatedAt - limits.WindowMs())
    {
      CustomerFollows(limits, before, after, log, a, earlier, customer);
    }
  }

  lemma AdmissionOf(full: seq<int>, pruned: seq<int>, now: int, max: int, window: int, earlier: int, admitted: bool)
    requires Admitted(full, max, window)
    requires Agree(pruned, full, earlier - window) && earlier <= now
    requires admitted ==> |Since(pruned, now - window)| < max
    ensures Admitted(full + (if admitted then [now] else []), max, window)
  {
    if admitted {
      AgreeLater(pruned, full, earlier - window, now - window);
      AdmittedExtends(full, now, max, window);
    } else {
      assert full + [] == full;
    }
  }

  lemma TargetAdmission(limits: Limits, before: LimiterState, after: LimiterState, log: seq<AuditRecord>,
                        a: AuditRecord, earlier: int, key: TargetKey)
    requires LimiterFollowsLog(limits, before, log, earlier) && earlier <= a.evaluatedAt
    requires LimiterMoved(limits, before, after, a)
    requires Admitted(TargetApprovals(log, key), limits.maxPerWindow, limits.WindowMs())
    ensures Admitted(TargetApprovals(log + [a], key), limits.maxPerWindow, limits.WindowMs())
  {
    TargetApprovalsAppend(log, a, key);
    AdmissionOf(TargetApprovals(log, key), Times(before.targetTimes, key), a.evaluatedAt, limits.maxPerWindow,
                limits.WindowMs(), earlier, IsFreshApproval(a) && KeyOfRecord(a) == key);
  }

  lemma CustomerAdmission(limits: Limits, before: LimiterState, after: LimiterState, log: seq<AuditRecord>,
                          a: AuditRecord, earlier: int, customer: Uuid)
    requires LimiterFollowsLog(limits, before, log, earlier) && earlier <= a.evaluatedAt
    requires LimiterMoved(limits, before, after, a)
    requires Admitted(CustomerApprovals(log, customer), limits.maxPerWindow * 3, limits.WindowMs())
    ensures Admitted(CustomerApprovals(log + [a], customer), limits.maxPerWindow * 3, limits.WindowMs())
  {
    CustomerApprovalsAppend(log, a, customer);
    AdmissionOf(CustomerApprovals(log, customer), Times(before.customerTimes, customer), a.evaluatedAt,
                limits.maxPerWindow * 3, limits.WindowMs(), earlier, IsFreshApproval(a) && a.customerId == customer);
  }

  lemma MoveKeepsAdmission(limits: Limits, before: LimiterState, after: LimiterState, log: seq<AuditRecord>,
                           a: AuditRecord, earlier: int)
    requires LimiterFollowsLog(limits, before, log, earlier) && earlier <= a.evaluatedAt
    requires LimiterMoved(limits, before, after, a)
    requires ApprovalsAdmitted(limits, log)
    ensures ApprovalsAdmitted(limits, log + [a])
  {
    forall key ensures Admitted(TargetApprovals(log + [a], key), limits.maxPerWindow, limits.WindowMs()) {
      TargetAdmission(limits, before, after, log, a, earlier, key);
    }
    forall customer
      ensures Admitted(CustomerApprovals(log + [a], customer), limits.maxPerWindow * 3, limits.WindowMs())
    {
      CustomerAdmission(limits, before, after, log, a, earlier, customer);
    }
  }

  lemma EvaluateMovesLimiter(env: Env, st: GatewayState, call: Call)
    ensures var (after, r) := Evaluate(env, st, call);
            after.log == st.log + [AuditOf(call, r)]
            && AuditOf(call, r).evaluatedAt == call.now
            && LimiterMoved(env.limits, st.limiter, after.limiter, AuditOf(call, r))
  {
  }

  lemma {:induction false} LimiterInvariant(env: Env, events: seq<Event>, now: int)
    requires ClockAscends(events) && ClockAtMost(events, now)
    ensures LimiterFollowsLog(env.limits, Run(env, events).limiter, Run(env, events).log, now)
    ensures ApprovalsAdmitted(env.limits, Run(env, events).log)
  {
    hide Evaluate, LimiterFollowsLog, ApprovalsAdmitted, LimiterMoved;
    if events == [] {
      FreshLimiter(env.limits, now);
    } else {
      var n := |events| - 1;
      var before := Run(env, events[..n]);
      if events[n].EvaluateCall? {
        var call := events[n].call;
        LimiterInvariant(env, events[..n], call.now);
        var (after, r) := Evaluate(env, before, call);
        EvaluateMovesLimiter(env, before, call);
        MoveFollowsLog(env.limits, before.limiter, after.limiter, before.log, AuditOf(call, r), call.now);
        MoveKeepsAdmission(env.limits, before.limiter, after.limiter, before.log, AuditOf(call, r), call.now);
        FollowsLater(env.limits, after.limiter, after.log, call.now, now);
      } else {
        LimiterInvariant(env, events[..n], now);
      }
    }
  }

  lemma FreshLimiter(limits: Limits, now: int)
    ensures LimiterFollowsLog(limits, FRESH.limiter, FRESH.log, now) && ApprovalsAdmitted(limits, FRESH.log)
  {
  }

  lemma FollowsLater(limits: Limits, limiter: LimiterState, log: seq<AuditRecord>, earlier: int, now: int)
    requires LimiterFollowsLog(limits, limiter, log, earlier) && earlier <= now
    ensures LimiterFollowsLog(limits, limiter, log, now)
  {
    var from, cutoff := earlier - limits.WindowMs(), now - limits.WindowMs();
    forall key ensures Agree(Times(limiter.targetTimes, key), TargetApprovals(log, key), cutoff) {
      AgreeLater(Times(limiter.targetTimes, key), TargetApprovals(log, key), from, cutoff);
    }
    forall customer ensures Agree(Times(limiter.customerTimes, customer), CustomerApprovals(log, customer), cutoff) {
      AgreeLater(Times(limiter.customerTimes, customer), CustomerApprovals(log, customer), from, cutoff);
    }
  }

  /** At any later time the pruned limiter answers as the full history of fresh approvals
      in the audit log would, whatever was cleared from the store in between. */
  lemma {:induction false} LimiterAnswersFromLog(env: Env, events: seq<Event>, key: TargetKey, customer: Uuid, now: int)
    requires ClockAscends(events) && ClockAtMost(events, now)
    ensures Limited(env.limits, Run(env, events).limiter, key, Some(customer), now)
            <==> LimitedByHistory(env.limits, Run(env, events).log, key, customer, now)
  {
    hide *;
    LimiterInvariant(env, events, now);
    FollowerAgrees(env.limits, Run(env, events).limiter, Run(env, events).log, key, customer, now);
    FollowerAnswers(env.limits, Run(env, events).limiter, Run(env, events).log, key, customer, now);
  }

  lemma FollowerAgrees(limits: Limits, limiter: LimiterState, log: seq<AuditRecord>, key: TargetKey, customer: Uuid,
                       now: int)
    requires LimiterFollowsLog(limits, limiter, log, now)
    ensures Agree(Times(limiter.targetTimes, key), TargetApprovals(log, key), now - limits.WindowMs())
    ensures Agree(Times(limiter.customerTimes, customer), CustomerApprovals(log, customer), now - limits.WindowMs())
  {
  }

  lemma FollowerAnswers(limits: Limits, limiter: LimiterState, log: seq<AuditRecord>, key: TargetKey, customer: Uuid,
                        now: int)
    requires Agree(Times(limiter.targetTimes, key), TargetApprovals(log, key), now - limits.WindowMs())
    requires Agree(Times(limiter.customerTimes, customer), CustomerApprovals(log, customer), now - limits.WindowMs())
    ensures Limited(limits, limiter, key, Some(customer), now)
            <==> LimitedByHistory(limits, log, key, customer, now)
  {
  }

  /** What a limiter that never forgot anything would answer. */
  predicate LimitedByHistory(limits: Limits, log: seq<AuditRecord>, key: TargetKey, customer: Uuid, now: int) {
    var cutoff := now - limits.WindowMs();
    |Since(TargetApprovals(log, key), cutoff)| >= limits.maxPerWindow
    || |Since(CustomerApprovals(log, customer), cutoff)| >= limits.maxPerWindow * 3
  }

  /** The log entries that are fresh approvals of a target, not older than `from`. */
  function RecentOfTarget(log: seq<AuditRecord>, key: TargetKey, from: int): set<nat> {
    set i: nat | i < |log| && log[i].decision == Approved && !log[i].isReplay && log[i].targetType == key.targetType
                 && log[i].targetId == key.targetId && log[i].evaluatedAt >= from
  }

  function RecentOfCustomer(log: seq<AuditRecord>, customer: Uuid, from: int): set<nat> {
    set i: nat | i < |log| && log[i].decision == Approved && !log[i].isReplay && log[i].customerId == customer
                 && log[i].evaluatedAt >= from
  }

  lemma RecentGrows(log: seq<AuditRecord>, a: AuditRecord, key: TargetKey, customer: Uuid, from: int)
    ensures |log| !in RecentOfTarget(log, key, from) && |log| !in RecentOfCustomer(log, customer, from)
    ensures RecentOfTarget(log + [a], key, from)
         == RecentOfTarget(log, key, from)
            + (if IsFreshApproval(a) && KeyOfRecord(a) == key && a.evaluatedAt >= from then {|log|} else {})
    ensures RecentOfCustomer(log + [a], customer, from)
         == RecentOfCustomer(log, customer, from)
            + (if IsFreshApproval(a) && a.customerId == customer && a.evaluatedAt >= from then {|log|} else {})
  {
  }

  lemma SinceGrows(times: seq<int>, t: int, from: int)
    ensures |Since(times + [t], from)| == |Since(times, from)| + (if t >= from then 1 else 0)
  {
    AppendParts(times, t);
  }

  lemma TargetCountGrows(log: seq<AuditRecord>, a: AuditRecord, key: TargetKey, from: int)
    requires |Since(TargetApprovals(log, key), from)| == |RecentOfTarget(log, key, from)|
    ensures |Since(TargetApprovals(log + [a], key), from)| == |RecentOfTarget(log + [a], key, from)|
  {
    RecentGrows(log, a, key, a.customerId, from);
    SinceGrows(TargetApprovals(log, key), a.evaluatedAt, from);
    TargetApprovalsAppend(log, a, key);
    hide Since, TargetApprovals, RecentOfTarget;
    assert TargetApprovals(log, key) + [] == TargetApprovals(log, key);
  }

  lemma CustomerCountGrows(log: seq<AuditRecord>, a: AuditRecord, customer: Uuid, from: int)
    requires |Since(CustomerApprovals(log, customer), from)| == |RecentOfCustomer(log, customer, from)|
    ensures |Since(CustomerApprovals(log + [a], customer), from)| == |RecentOfCustomer(log + [a], customer, from)|
  {
    RecentGrows(log, a, KeyOfRecord(a), customer, from);
    SinceGrows(CustomerApprovals(log, customer), a.evaluatedAt, from);
    CustomerApprovalsAppend(log, a, customer);
    hide Since, CustomerApprovals, RecentOfCustomer;
    assert CustomerApprovals(log, customer) + [] == CustomerApprovals(log, customer);
  }

  lemma {:induction false} RecentCount(log: seq<AuditRecord>, key: TargetKey, customer: Uuid, from: int)
    ensures |Since(TargetApprovals(log, key), from)| == |RecentOfTarget(log, key, from)|
    ensures |Since(CustomerApprovals(log, customer), from)| == |RecentOfCustomer(log, customer, from)|
  {
    hide Since, TargetApprovals, CustomerApprovals, RecentOfTarget, RecentOfCustomer;
    if log == [] {
      EmptyLogCounts(key, customer, from, from);
    } else {
      var front, a := log[..|log| - 1], log[|log| - 1];
      RecentCount(front, key, customer, from);
      TargetCountGrows(front, a, key, from);
      CustomerCountGrows(front, a, customer, from);
      assert log == front + [a];
    }
  }

  /** After any run, at any later time, the limiter limits a target and its customer if and
      only if the log has that many fresh approvals in the window before: older ones are
      forgotten, newer ones never, whatever was pruned or cleared in between. */
  lemma LimitedExactly(env: Env, events: seq<Event>, key: TargetKey, customer: Uuid, now: int)
    requires ClockAscends(events) && ClockAtMost(events, now)
    ensures var st, from := Run(env, events), now - env.limits.windowSeconds * 1000;
            Limited(env.limits, st.limiter, key, Some(customer), now)
            <==> || |RecentOfTarget(st.log, key, from)| >= env.limits.maxPerWindow
                 || |RecentOfCustomer(st.log, customer, from)| >= env.limits.maxPerWindow * 3
  {
    hide Run, Limited, Since, RecentOfTarget, RecentOfCustomer;
    var log, from := Run(env, events).log, now - env.limits.windowSeconds * 1000;
    LimiterAnswersFromLog(env, events, key, customer, now);
    RecentCount(log, key, customer, from);
  }

  /** So a call that meets the first nine demands is rate limited if and only if the log
      has enough fresh approvals of its target or of its customer in the window. */
  lemma RateLimitedExactly(env: Env, events: seq<Event>, call: Call)
    requires ClockAscends(events) && ClockAtMost(events, call.now) && call.fault != 10
    requires forall stage :: 1 <= stage < 10 ==> Demand(env, Run(env, events), call, stage)
    ensures var st, from := Run(env, events), call.now - env.limits.windowSeconds * 1000;
            Judge(env, st, call).decision
            == if || |RecentOfTarget(st.log, KeyOf(call.target), from)| >= env.limits.maxPerWindow
                  || |RecentOfCustomer(st.log, call.target.customerId, from)| >= env.limits.maxPerWindow * 3
               then RateLimited else Approved
  {
    hide Run, RecentOfTarget, RecentOfCustomer, Judge, Limited;
    var st := Run(env, events);
    LimitedExactly(env, events, KeyOf(call.target), call.target.customerId, call.now);
    JudgeStageInRange(env, st, call);
    StopsAtFirstFailure(env, st, call);
    ReasonsExactly(env, st, call);
    NotReplayed(env, st, call);
    assert Demand(env, st, call, 10) <==> !Limited(env.limits, st.limiter, KeyOf(call.target),
                                                   Some(call.target.customerId), call.now);
  }

  /** No closed window ever holds more fresh approvals than allowed: `maxPerWindow` for a
      target, three times that for a customer. */
  lemma {:induction false} NoWindowIsOverfull(env: Env, events: seq<Event>, key: TargetKey, customer: Uuid, start: int)
    requires ClockAscends(events)
    ensures var log, window, max := Run(env, events).log, env.limits.WindowMs(), env.limits.maxPerWindow;
            var allowed := if max > 0 then max else 0;
            && |InWindow(TargetApprovals(log, key), start, window)| <= allowed
            && |InWindow(CustomerApprovals(log, customer), start, window)| <= allowed * 3
  {
    var now := LatestTime(events);
    LimiterInvariant(env, events, now);
    var log, window, max := Run(env, events).log, env.limits.WindowMs(), env.limits.maxPerWindow;
    AdmittedWindowBound(TargetApprovals(log, key), max, window, start);
    AdmittedWindowBound(CustomerApprovals(log, customer), max * 3, window, start);
  }

  function LatestTime(events: seq<Event>): (now: int)
    ensures ClockAtMost(events, now)
  {
    if events == [] then 0
    else
      var n := |events| - 1;
      var before := LatestTime(events[..n]);
      if events[n].EvaluateCall? && events[n].call.now > before then events[n].call.now else before
  }

  /** The log entries that are fresh approvals of a target in a closed window. */
  function ApprovedWithin(log: seq<AuditRecord>, key: TargetKey, start: int, end: int): set<nat> {
    set i: nat | i < |log| && log[i].decision == Approved && !log[i].isReplay && log[i].targetType == key.targetType
                 && log[i].targetId == key.targetId && start <= log[i].evaluatedAt <= end
  }

  function ApprovedForCustomerWithin(log: seq<AuditRecord>, customer: Uuid, start: int, end: int): set<nat> {
    set i: nat | i < |log| && log[i].decision == Approved && !log[i].isReplay && log[i].customerId == customer
                 && start <= log[i].evaluatedAt <= end
  }

  lemma WithinGrows(log: seq<AuditRecord>, a: AuditRecord, key: TargetKey, customer: Uuid, start: int, end: int)
    ensures ApprovedWithin(log + [a], key, start, end)
         == ApprovedWithin(log, key, start, end)
            + (if IsFreshApproval(a) && KeyOfRecord(a) == key && start <= a.evaluatedAt <= end then {|log|} else {})
    ensures ApprovedForCustomerWithin(log + [a], customer, start, end)
         == ApprovedForCustomerWithin(log, customer, start, end)
            + (if IsFreshApproval(a) && a.customerId == customer && start <= a.evaluatedAt <= end then {|log|} else {})
  {
  }

  lemma InWindowGrows(times: seq<int>, t: int, start: int, window: int)
    ensures InWindow(times + [t], start, window)
         == InWindow(times, start, window) + (if start <= t <= start + window then [t] else [])
  {
    AppendParts(times, t);
  }

  lemma TargetWithinGrows(log: seq<AuditRecord>, a: AuditRecord, key: TargetKey, start: int, window: int)
    requires |InWindow(TargetApprovals(log, key), start, window)| >= |ApprovedWithin(log, key, start, start + window)|
    ensures |InWindow(TargetApprovals(log + [a], key), start, window)|
         >= |ApprovedWithin(log + [a], key, start, start + window)|
  {
    WithinGrows(log, a, key, a.customerId, start, start + window);
    InWindowGrows(TargetApprovals(log, key), a.evaluatedAt, start, window);
    TargetApprovalsAppend(log, a, key);
    hide InWindow, TargetApprovals, ApprovedWithin;
    assert TargetApprovals(log, key) + [] == TargetApprovals(log, key);
  }

  lemma CustomerWithinGrows(log: seq<AuditRecord>, a: AuditRecord, customer: Uuid, start: int, window: int)
    requires |InWindow(CustomerApprovals(log, customer), start, window)|
          >= |ApprovedForCustomerWithin(log, customer, start, start + window)|
    ensures |InWindow(CustomerApprovals(log + [a], customer), start, window)|
         >= |ApprovedForCustomerWithin(log + [a], customer, start, start + window)|
  {
    WithinGrows(log, a, KeyOfRecord(a), customer, start, start + window);
    InWindowGrows(CustomerApprovals(log, customer), a.evaluatedAt, start, window);
    CustomerApprovalsAppend(log, a, customer);
    hide InWindow, CustomerApprovals, ApprovedForCustomerWithin;
    assert CustomerApprovals(log, customer) + [] == CustomerApprovals(log, customer);
  }

  lemma {:induction false} WithinCounts(log: seq<AuditRecord>, key: TargetKey, customer: Uuid, start: int, window: int)
    ensures |ApprovedWithin(log, key, start, start + window)| <= |InWindow(TargetApprovals(log, key), start, window)|
    ensures |ApprovedForCustomerWithin(log, customer, start, start + window)|
         <= |InWindow(CustomerApprovals(log, customer), start, window)|
  {
    hide InWindow, TargetApprovals, CustomerApprovals, ApprovedWithin, ApprovedForCustomerWithin;
    if log == [] {
      EmptyLogCounts(key, customer, start, start + window);
    } else {
      var front, a := log[..|log| - 1], log[|log| - 1];
      WithinCounts(front, key, customer, start, window);
      TargetWithinGrows(front, a, key, start, window);
      CustomerWithinGrows(front, a, customer, start, window);
      assert log == front + [a];
    }
  }

  lemma EmptyLogCounts(key: TargetKey, customer: Uuid, from: int, end: int)
    ensures RecentOfTarget([], key, from) == {} == RecentOfCustomer([], customer, from)
    ensures ApprovedWithin([], key, from, end) == {} == ApprovedForCustomerWithin([], customer, from, end)
    ensures Since(TargetApprovals([], key), from) == [] == Since(CustomerApprovals([], customer), from)
  {
  }

  /** The same bound counted in the log itself: no closed window of `windowSeconds` holds
      more fresh approvals of a target than `maxPerWindow`, or of a customer than thrice that. */
  lemma {:induction false} NoWindowOfTheLogIsOverfull(env: Env, events: seq<Event>, key: TargetKey, customer: Uuid,
                                                      start: int)
    requires ClockAscends(events)
    ensures var log, end := Run(env, events).log, start + env.limits.windowSeconds * 1000;
            var allowed := if env.limits.maxPerWindow > 0 then env.limits.maxPerWindow else 0;
            && |ApprovedWithin(log, key, start, end)| <= allowed
            && |ApprovedForCustomerWithin(log, customer, start, end)| <= allowed * 3
  {
    hide Run, ApprovedWithin, ApprovedForCustomerWithin, InWindow;
    NoWindowIsOverfull(env, events, key, customer, start);
    WithinCounts(Run(env, events).log, key, customer, start, env.limits.WindowMs());
  }

  // ---------------------------------------------------------------------------
  // The kill switch
  // ---------------------------------------------------------------------------

  /** Whether the operator's last word was to activate. */
  function LastActivated(events: seq<Event>): bool {
    if events == [] then false
    else
      match events[|events| - 1]
      case ActivateSwitch => true
      case DeactivateSwitch => false
      case _ => LastActivated(events[..|events| - 1])
  }

  lemma SwitchMoves(env: Env, st: GatewayState, e: Event)
    ensures var kill := Step(env, st, e).kill;
            && (kill.corrupted <==> st.kill.corrupted || e.CorruptSwitch?)
            && (!kill.corrupted ==> kill.active == (e.ActivateSwitch? || (!e.DeactivateSwitch? && st.kill.active)))
  {
    hide Evaluate;
    if e.EvaluateCall? {
      CallsKeepSwitch(env, st, e.call);
    }
  }

  predicate EverCorrupted(events: seq<Event>) {
    exists i :: 0 <= i < |events| && events[i].CorruptSwitch?
  }

  lemma CorruptedAppend(events: seq<Event>, e: Event)
    ensures EverCorrupted(events + [e]) <==> EverCorrupted(events) || e.CorruptSwitch?
  {
    var longer := events + [e];
    assert longer[|events|] == e;
    if EverCorrupted(events) {
      var i :| 0 <= i < |events| && events[i].CorruptSwitch?;
      assert longer[i].CorruptSwitch?;
    }
  }

  /** After any run the switch is engaged if and only if it was ever corrupted or the
      operator's last word was to activate it. */
  lemma {:induction false} EngagedExactly(env: Env, events: seq<Event>)
    ensures var kill := Run(env, events).kill;
            && (kill.corrupted <==> EverCorrupted(events))
            && (!kill.corrupted ==> kill.active == LastActivated(events))
            && (kill.Engaged() <==> EverCorrupted(events) || LastActivated(events))
  {
    if events != [] {
      hide Step, EverCorrupted;
      var front, e := events[..|events| - 1], events[|events| - 1];
      EngagedExactly(env, front);
      SwitchMoves(env, Run(env, front), e);
      assert events == front + [e];
      CorruptedAppend(front, e);
    }
  }

  lemma CallsKeepSwitch(env: Env, st: GatewayState, call: Call)
    ensures Evaluate(env, st, call).0.kill == st.kill
  {
  }

  lemma {:induction false} CorruptionLasts(env: Env, earlier: seq<Event>, later: seq<Event>)
    requires Run(env, earlier).kill.corrupted
    ensures Run(env, earlier + later).kill.corrupted
  {
    hide Evaluate;
    if later == [] {
      assert earlier + later == earlier;
    } else {
      CorruptionLasts(env, earlier, later[..|later| - 1]);
      RunSplits(env, earlier, later);
      if later[|later| - 1].EvaluateCall? {
        CallsKeepSwitch(env, Run(env, earlier + later[..|later| - 1]), later[|later| - 1].call);
      }
    }
  }

  /** Once corrupted, the switch stays engaged through every later event, and every call
      is refused at stage 1, replays of earlier approvals included. */
  lemma CorruptionIsFinal(env: Env, earlier: seq<Event>, later: seq<Event>, call: Call)
    requires Run(env, earlier).kill.corrupted
    ensures var r := Evaluate(env, Run(env, earlier + later), call).1;
            !r.eligible && r.checksPassed == [] && r.decision in {KillSwitchActive, InvalidProposal}
  {
    CorruptionLasts(env, earlier, later);
    EngagedRefuses(env, Run(env, earlier + later), call);
  }

  lemma EngagedRefuses(env: Env, st: GatewayState, call: Call)
    requires st.kill.Engaged()
    ensures var r := Evaluate(env, st, call).1;
            !r.eligible && r.checksPassed == [] && r.decision in {KillSwitchActive, InvalidProposal}
  {
  }
}
