/** The safety gateway and its collaborators as mutable objects. Every method is proved to
    do exactly what `GatewaySpec` says it does. */
module Gateway {
  import opened Identity
  import opened Domain
  import opened Checks
  import opened RateLimit
  import opened GatewaySpec

  class InMemoryIdempotencyStore {
    var primary: map<PrimaryKey, GatewayResult>
    var targets: map<TargetKey, TargetEntry>

    constructor ()
      ensures primary == map[] && targets == map[]
    {
      primary, targets := map[], map[];
    }

    method GetExistingDecision(key: PrimaryKey) returns (r: Option<GatewayResult>)
      ensures r == if key in primary then Some(primary[key]) else None
    {
      r := if key in primary then Some(primary[key]) else None;
    }

    method GetStoredTargetEntry(key: TargetKey) returns (r: Option<TargetEntry>)
      ensures r == if key in targets then Some(targets[key]) else None
    {
      r := if key in targets then Some(targets[key]) else None;
    }

    method CheckTargetConflict(key: TargetKey, proposalId: Uuid, action: Action, amount: int)
      returns (r: Option<Reason>)
      ensures r == if TargetConflict(targets, key, proposalId, action, amount)
                   then Some(ConflictingProposalForTarget) else None
    {
      if key !in targets {
        return None;
      }
      var existing := targets[key];
      if existing.proposalId != proposalId {
        if existing.result.decision == Approved {
          if existing.action != action || existing.amountMinor != amount {
            return Some(ConflictingProposalForTarget);
          }
        }
      }
      return None;
    }

    method RecordDecision(primaryKey: PrimaryKey, key: TargetKey, action: Action, amount: int, result: GatewayResult)
      modifies this
      ensures primary == old(primary)[primaryKey := result]
      ensures targets == old(targets)[key := TargetEntry(primaryKey.proposalId, action, amount, result)]
    {
      primary := primary[primaryKey := result];
      targets := targets[key := TargetEntry(primaryKey.proposalId, action, amount, result)];
    }

    method Clear()
      modifies this
      ensures primary == map[] && targets == map[]
    {
      primary, targets := map[], map[];
    }
  }

  class GatewayKillSwitch {
    var active: bool
    var corrupted: bool

    constructor (initial: bool)
      ensures State() == KillSwitchState(initial, false)
    {
      active, corrupted := initial, false;
    }

    function State(): KillSwitchState
      reads this
    {
      KillSwitchState(active, corrupted)
    }

    method Activate()
      modifies this
      ensures State() == old(State()).(active := true)
    {
      active := true;
    }

    method Deactivate()
      modifies this
      ensures State() == if old(corrupted) then old(State()) else KillSwitchState(false, false)
    {
      if !corrupted {
        active := false;
      }
    }

    method SetCorrupted()
      modifies this
      ensures State() == KillSwitchState(true, true)
    {
      corrupted := true;
      active := true;
    }

    method IsActive() returns (r: bool)
      ensures r == State().Engaged()
    {
      if corrupted {
        return true;
      }
      return active;
    }
  }

  class GatewayAuditLogger {
    var records: seq<AuditRecord>

    constructor ()
      ensures records == []
    {
      records := [];
    }

    method Record(entry: AuditRecord)
      modifies this
      ensures records == old(records) + [entry]
    {
      records := records + [entry];
    }
  }

  class DeterministicSafetyGateway {
    const config: GatewayConfig
    const policy: GatewayPolicy
    const store: InMemoryIdempotencyStore
    const limiter: InMemoryRateLimiter
    const killSwitch: GatewayKillSwitch
    const auditLogger: GatewayAuditLogger

    constructor (config: GatewayConfig, policy: GatewayPolicy, store: InMemoryIdempotencyStore,
                 limiter: InMemoryRateLimiter, killSwitch: GatewayKillSwitch, auditLogger: GatewayAuditLogger)
      ensures this.config == config && this.policy == policy && this.store == store
      ensures this.limiter == limiter && this.killSwitch == killSwitch && this.auditLogger == auditLogger
    {
      this.config, this.policy := config, policy;
      this.store, this.limiter, this.killSwitch, this.auditLogger := store, limiter, killSwitch, auditLogger;
    }

    function Environment(): Env {
      Env(config, policy, limiter.limits)
    }

    function State(): GatewayState
      reads store, limiter, killSwitch, auditLogger
    {
      GatewayState(store.primary, store.targets, limiter.State(), killSwitch.State(), auditLogger.records)
    }

    /** Builds the result of a call that ends with these check lists. */
    function Conclude(call: Call, decision: Decision, reason: Reason, evaluated: seq<string>, passed: seq<string>,
                      eligible: bool, isReplay: bool): GatewayResult
    {
      GatewayResult(decision, call.proposal.proposalId, call.target.targetType, call.target.targetId, reason,
                    config.policyVersion, config.gatewayVersion, config.decisionVersion,
                    evaluated, passed, call.reference, eligible, isReplay)
    }

    method RecordAudit(result: GatewayResult, call: Call)
      modifies auditLogger
      ensures auditLogger.records == old(auditLogger.records) + [AuditOf(call, result)]
    {
      auditLogger.Record(AuditOf(call, result));
    }

    method RecordAndStore(result: GatewayResult, call: Call)
      modifies auditLogger, store
      ensures auditLogger.records == old(auditLogger.records) + [AuditOf(call, result)]
      ensures store.primary == old(store.primary)[PrimaryKeyOf(Environment(), call.proposal) := result]
      ensures store.targets == old(store.targets)[KeyOf(call.target) :=
                TargetEntry(call.proposal.proposalId, call.proposal.action, call.target.amountMinor, result)]
    {
      RecordAudit(result, call);
      store.RecordDecision(PrimaryKeyOf(Environment(), call.proposal), KeyOf(call.target),
                           call.proposal.action, call.target.amountMinor, result);
    }

    method FinishFailClosed(call: Call, evaluated: seq<string>, passed: seq<string>) returns (result: GatewayResult)
      modifies auditLogger
      ensures result == Conclude(call, InvalidProposal, GatewayConfigurationError, evaluated, passed, false, false)
      ensures auditLogger.records == old(auditLogger.records) + [AuditOf(call, result)]
    {
      result := Conclude(call, InvalidProposal, GatewayConfigurationError, evaluated, passed, false, false);
      RecordAudit(result, call);
    }

    method RejectInvalid(call: Call, reason: Reason, evaluated: seq<string>, passed: seq<string>)
      returns (result: GatewayResult)
      modifies auditLogger
      ensures result == Conclude(call, InvalidProposal, reason, evaluated, passed, false, false)
      ensures auditLogger.records == old(auditLogger.records) + [AuditOf(call, result)]
    {
      result := Conclude(call, InvalidProposal, reason, evaluated, passed, false, false);
      RecordAudit(result, call);
    }

    /** Stages 1 to 4: no result means that all four checks passed. */
    method RunIntake(call: Call) returns (stopped: Option<GatewayResult>)
      modifies auditLogger
      ensures var v := Intake(Environment(), old(State()), call);
              if v.Some?
              then stopped == Some(ResultOf(Environment(), call, v.value))
                && auditLogger.records == old(auditLogger.records) + [AuditOf(call, stopped.value)]
              else stopped == None && auditLogger.records == old(auditLogger.records)
    {
      var evaluated, passed := CHECKS[..1], CHECKS[..0];
      var result: GatewayResult;
      if call.fault == 1 { result := FinishFailClosed(call, evaluated, passed); return Some(result); }
      var engaged := killSwitch.IsActive();
      if engaged {
        result := Conclude(call, KillSwitchActive, KillSwitchEngaged, evaluated, passed, false, false);
        RecordAudit(result, call);
        return Some(result);
      }

      passed, evaluated := passed + [CHECKS[0]], evaluated + [CHECKS[1]];
      assert passed == CHECKS[..1] && evaluated == CHECKS[..2];
      if call.fault == 2 { result := FinishFailClosed(call, evaluated, passed); return Some(result); }
      var schema := CheckSchemaAndVersion(call.proposal, call.target, config);
      if schema.Some? { result := RejectInvalid(call, schema.value, evaluated, passed); return Some(result); }

      passed, evaluated := passed + [CHECKS[1]], evaluated + [CHECKS[2]];
      assert passed == CHECKS[..2] && evaluated == CHECKS[..3];
      if call.fault == 3 { result := FinishFailClosed(call, evaluated, passed); return Some(result); }
      var identity := CheckProposalIdentity(call.proposal, call.target);
      if identity.Some? { result := RejectInvalid(call, identity.value, evaluated, passed); return Some(result); }

      passed, evaluated := passed + [CHECKS[2]], evaluated + [CHECKS[3]];
      assert passed == CHECKS[..3] && evaluated == CHECKS[..4];
      if call.fault == 4 { result := FinishFailClosed(call, evaluated, passed); return Some(result); }
      var financial := CheckFinancialIntegrity(call.proposal, call.target);
      if financial.Some? { result := RejectInvalid(call, financial.value, evaluated, passed); return Some(result); }
      return None;
    }

    /** Stage 5. */
    method RunReplayStage(call: Call) returns (stopped: Option<GatewayResult>)
      modifies auditLogger
      ensures var v := ReplayStage(Environment(), old(State()), call);
              if v.Some?
              then stopped == Some(ResultOf(Environment(), call, v.value))
                && auditLogger.records == old(auditLogger.records) + [AuditOf(call, stopped.value)]
              else stopped == None && auditLogger.records == old(auditLogger.records)
    {
      var evaluated, passed := CHECKS[..5], CHECKS[..4];
      var result: GatewayResult;
      if call.fault == 5 { result := FinishFailClosed(call, evaluated, passed); return Some(result); }
      var existing := store.GetExistingDecision(PrimaryKeyOf(Environment(), call.proposal));
      if existing.Some? {
        var entry := store.GetStoredTargetEntry(KeyOf(call.target));
        if entry.Some? {
          if entry.value.action != call.proposal.action || entry.value.amountMinor != call.proposal.amountMinor {
            result := Conclude(call, Blocked, ConflictingProposalForTarget, evaluated, passed, false, false);
            RecordAudit(result, call);
            return Some(result);
          }
        }
        var reason := if existing.value.decision == Approved then IdempotentReplayApproved else IdempotentReplayBlocked;
        result := Conclude(call, existing.value.decision, reason, evaluated, passed, existing.value.eligible, true);
        RecordAudit(result, call);
        return Some(result);
      }
      var conflict := store.CheckTargetConflict(KeyOf(call.target), call.proposal.proposalId,
                                                call.proposal.action, call.proposal.amountMinor);
      if conflict.Some? {
        result := Conclude(call, Blocked, conflict.value, evaluated, passed, false, false);
        RecordAudit(result, call);
        return Some(result);
      }
      return None;
    }

    method RefuseAndRemember(call: Call, decision: Decision, reason: Reason, evaluated: seq<string>,
                             passed: seq<string>)
      returns (result: GatewayResult)
      modifies auditLogger, store
      ensures result == Conclude(call, decision, reason, evaluated, passed, false, false)
      ensures auditLogger.records == old(auditLogger.records) + [AuditOf(call, result)]
      ensures store.primary == old(store.primary)[PrimaryKeyOf(Environment(), call.proposal) := result]
      ensures store.targets == old(store.targets)[KeyOf(call.target) :=
                TargetEntry(call.proposal.proposalId, call.proposal.action, call.target.amountMinor, result)]
    {
      result := Conclude(call, decision, reason, evaluated, passed, false, false);
      RecordAndStore(result, call);
    }

    /** What a stop at one of the stages 6 to 9 leaves in the audit log and the store. */
    twostate predicate StoppedAt(call: Call, v: Verdict, result: GatewayResult)
      requires 1 <= v.stage <= 10
      reads auditLogger, store
    {
      result == ResultOf(Environment(), call, v)
      && auditLogger.records == old(auditLogger.records) + [AuditOf(call, result)]
      && store.primary == (if Remembered(v)
                           then old(store.primary)[PrimaryKeyOf(Environment(), call.proposal) := result]
                           else old(store.primary))
      && store.targets == (if Remembered(v)
                           then old(store.targets)[KeyOf(call.target) :=
                             TargetEntry(call.proposal.proposalId, call.proposal.action, call.target.amountMinor,
                                         result)]
                           else old(store.targets))
    }

    /** Stages 6 to 9: no result means that all four checks passed. */
    method RunPolicyStages(call: Call) returns (stopped: Option<GatewayResult>)
      modifies auditLogger, store
      ensures var v := PolicyStages(Environment(), call);
              if v.Some? then stopped.Some? && StoppedAt(call, v.value, stopped.value)
              else stopped == None && unchanged(auditLogger, store)
    {
      var evaluated, passed := CHECKS[..6], CHECKS[..5];
      var result: GatewayResult;
      if call.fault == 6 { result := FinishFailClosed(call, evaluated, passed); return Some(result); }
      var allowlist := CheckActionAllowlist(call.proposal);
      if allowlist.Some? {
        var decision := if call.proposal.action == HumanReview then RequiresReview else Blocked;
        result := RefuseAndRemember(call, decision, allowlist.value, evaluated, passed);
        return Some(result);
      }

      passed, evaluated := passed + [CHECKS[5]], evaluated + [CHECKS[6]];
      assert passed == CHECKS[..6] && evaluated == CHECKS[..7];
      if call.fault == 7 { result := FinishFailClosed(call, evaluated, passed); return Some(result); }
      var retry := CheckRetryAndChronic(call.target, policy);
      if retry.Some? {
        result := RefuseAndRemember(call, Blocked, retry.value, evaluated, passed);
        return Some(result);
      }

      passed, evaluated := passed + [CHECKS[6]], evaluated + [CHECKS[7]];
      assert passed == CHECKS[..7] && evaluated == CHECKS[..8];
      if call.fault == 8 { result := FinishFailClosed(call, evaluated, passed); return Some(result); }
      var category := CheckFailureCategory(call.proposal, call.target, policy);
      if category.Some? {
        result := RefuseAndRemember(call, Blocked, category.value, evaluated, passed);
        return Some(result);
      }

      passed, evaluated := passed + [CHECKS[7]], evaluated + [CHECKS[8]];
      assert passed == CHECKS[..8] && evaluated == CHECKS[..9];
      if call.fault == 9 { result := FinishFailClosed(call, evaluated, passed); return Some(result); }
      var human := CheckHumanApproval(call.proposal, call.target, config, call.approval);
      if human.Some? {
        result := RefuseAndRemember(call, RequiresReview, human.value, evaluated, passed);
        return Some(result);
      }
      return None;
    }

    /** Stage 10 and the final authorization. */
    method RunRateStage(call: Call) returns (result: GatewayResult)
      modifies auditLogger, store, limiter
      ensures var v := RateStage(Environment(), old(State()), call);
              StoppedAt(call, v, result)
              && limiter.State() == LimiterAfter(Environment(), old(limiter.State()), call, v)
    {
      var evaluated, passed := CHECKS[..10], CHECKS[..9];
      if call.fault == 10 { result := FinishFailClosed(call, evaluated, passed); return; }
      var key, customer := KeyOf(call.target), Some(call.target.customerId);
      var limited := limiter.IsRateLimited(key, customer, call.now);
      if limited {
        result := Conclude(call, RateLimited, RateLimitExceeded, evaluated, passed, false, false);
        RecordAudit(result, call);
        return;
      }
      passed := passed + [CHECKS[9]];
      limiter.RecordAttempt(key, customer, call.now);
      result := Conclude(call, Approved, ApprovedForExecutionLayer, evaluated, passed, true, false);
      RecordAndStore(result, call);
    }

    method EvaluateProposal(call: Call) returns (result: GatewayResult)
      modifies auditLogger, store, limiter
      ensures (State(), result) == Evaluate(Environment(), old(State()), call)
    {
      hide Intake, ReplayStage, PolicyStages, RateStage, Pruned, Recorded;
      PartStages(Environment(), State(), call);
      var intake := RunIntake(call);
      if intake.Some? {
        return intake.value;
      }
      var replay := RunReplayStage(call);
      if replay.Some? {
        return replay.value;
      }
      var stopped := RunPolicyStages(call);
      if stopped.Some? {
        return stopped.value;
      }
      result := RunRateStage(call);
    }

    method EvaluateBatch(calls: seq<Call>) returns (results: seq<GatewayResult>)
      modifies auditLogger, store, limiter
      ensures (State(), results) == Batch(Environment(), old(State()), calls)
    {
      results := [];
      for i := 0 to |calls|
        invariant (State(), results) == Batch(Environment(), old(State()), calls[..i])
      {
        var r := EvaluateProposal(calls[i]);
        results := results + [r];
        assert calls[..i + 1][..i] == calls[..i];
      }
      assert calls[..|calls|] == calls;
    }
  }
}
