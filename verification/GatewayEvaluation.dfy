/** The gateway's benchmark: one pass over a batch that counts verdicts, adds up amounts and
    audits every approval again, independently of the gateway. */
module GatewayEvaluation {
  import opened Identity
  import opened Domain
  import opened Checks
  import opened GatewaySpec
  import opened GatewayRuns
  import opened Gateway
  import opened Rates

  /** One evaluated triplet with its result. */
  datatype Graded = Graded(call: Call, result: GatewayResult)

  datatype Report = Report(
    total: nat,
    approved: nat,
    blocked: nat,
    requiresReview: nat,
    rateLimited: nat,
    killSwitch: nat,
    invalid: nat,
    replays: nat,
    unsafe: nat,
    unsafeRateBps: int,
    integrityViolations: nat,
    distributionBps: map<Decision, int>,
    reasonCounts: map<Reason, nat>,
    totalAmount: int,
    approvedAmount: int,
    blockedAmount: int,
    requiresReviewAmount: int)

  // ---------------------------------------------------------------------------
  // What is counted
  // ---------------------------------------------------------------------------

  function CountDecision(graded: seq<Graded>, d: Decision): nat {
    if graded == [] then 0
    else CountDecision(graded[..|graded| - 1], d) + (if graded[|graded| - 1].result.decision == d then 1 else 0)
  }

  function CountReason(graded: seq<Graded>, reason: Reason): nat {
    if graded == [] then 0
    else CountReason(graded[..|graded| - 1], reason) + (if graded[|graded| - 1].result.reason == reason then 1 else 0)
  }

  function CountReplays(graded: seq<Graded>): nat {
    if graded == [] then 0
    else CountReplays(graded[..|graded| - 1]) + (if graded[|graded| - 1].result.isReplay then 1 else 0)
  }

  function AmountOf(graded: seq<Graded>, d: Decision): int {
    if graded == [] then 0
    else
      var g := graded[|graded| - 1];
      AmountOf(graded[..|graded| - 1], d) + (if g.result.decision == d then g.call.target.amountMinor else 0)
  }

  function TotalAmount(graded: seq<Graded>): int {
    if graded == [] then 0 else TotalAmount(graded[..|graded| - 1]) + graded[|graded| - 1].call.target.amountMinor
  }

  function Point(b: bool): nat {
    if b then 1 else 0
  }

  predicate FinancialMismatch(call: Call) {
    call.proposal.amountMinor != call.target.amountMinor || call.proposal.currency != call.target.currency
  }

  predicate HighValueUnapproved(threshold: int, call: Call) {
    call.target.amountMinor >= threshold && (call.approval.None? || !call.approval.value.approved)
  }

  /** How many of the four audit rules an approval of this call breaks. */
  function AuditPoints(policy: GatewayPolicy, threshold: int, call: Call): nat {
    Point(AttemptsExhausted(call.target, policy)) + Point(ChronicFailure(call.target, policy))
    + Point(HighValueUnapproved(threshold, call)) + Point(FinancialMismatch(call))
  }

  function UnsafePoints(policy: GatewayPolicy, threshold: int, g: Graded): nat {
    if g.result.decision == Approved then AuditPoints(policy, threshold, g.call) else 0
  }

  function UnsafeTotal(policy: GatewayPolicy, threshold: int, graded: seq<Graded>): nat {
    if graded == [] then 0
    else UnsafeTotal(policy, threshold, graded[..|graded| - 1]) + UnsafePoints(policy, threshold, graded[|graded| - 1])
  }

  const FINANCIAL_REASONS: set<Reason> := {AmountMismatch, CurrencyMismatch, InvalidFinancialUnit}

  predicate BreaksIntegrity(g: Graded) {
    || (g.result.decision == Approved && FinancialMismatch(g.call))
    || (g.result.decision == InvalidProposal && g.result.reason in FINANCIAL_REASONS)
  }

  function IntegrityViolations(graded: seq<Graded>): nat {
    if graded == [] then 0
    else IntegrityViolations(graded[..|graded| - 1]) + Point(BreaksIntegrity(graded[|graded| - 1]))
  }

  const DECISIONS: seq<Decision> := [Approved, Blocked, RequiresReview, RateLimited, KillSwitchActive, InvalidProposal]

  function Distribution(graded: seq<Graded>): map<Decision, int> {
    map d | d in DECISIONS :: Bps(CountDecision(graded, d), |graded|)
  }

  /** The reason counts list exactly the reasons that occur, each with its frequency. */
  ghost predicate CountsReasons(counts: map<Reason, nat>, graded: seq<Graded>) {
    forall reason :: (if reason in counts then counts[reason] else 0) == CountReason(graded, reason)
                     && (reason in counts <==> CountReason(graded, reason) > 0)
  }

  /** The report tells what the results say. */
  ghost predicate Reports(policy: GatewayPolicy, threshold: int, graded: seq<Graded>, r: Report) {
    && r.total == |graded|
    && r.approved == CountDecision(graded, Approved)
    && r.blocked == CountDecision(graded, Blocked)
    && r.requiresReview == CountDecision(graded, RequiresReview)
    && r.rateLimited == CountDecision(graded, RateLimited)
    && r.killSwitch == CountDecision(graded, KillSwitchActive)
    && r.invalid == CountDecision(graded, InvalidProposal)
    && r.replays == CountReplays(graded)
    && r.unsafe == UnsafeTotal(policy, threshold, graded)
    && r.unsafeRateBps == Bps(r.unsafe, r.approved)
    && r.integrityViolations == IntegrityViolations(graded)
    && r.distributionBps == Distribution(graded)
    && CountsReasons(r.reasonCounts, graded)
    && r.totalAmount == TotalAmount(graded)
    && r.approvedAmount == AmountOf(graded, Approved)
    && r.blockedAmount == AmountOf(graded, Blocked)
    && r.requiresReviewAmount == AmountOf(graded, RequiresReview)
  }

  function Pair(calls: seq<Call>, results: seq<GatewayResult>): seq<Graded>
    requires |calls| == |results|
  {
    seq(|calls|, i requires 0 <= i < |calls| => Graded(calls[i], results[i]))
  }

  // ---------------------------------------------------------------------------
  // The counting loop
  // ---------------------------------------------------------------------------

  /** What one graded call adds to each count and amount. */
  lemma CountsAppend(policy: GatewayPolicy, threshold: int, graded: seq<Graded>, g: Graded)
    ensures forall d ::
              CountDecision(graded + [g], d) == CountDecision(graded, d) + (if g.result.decision == d then 1 else 0)
    ensures forall c :: CountReason(graded + [g], c) == CountReason(graded, c) + (if g.result.reason == c then 1 else 0)
    ensures forall d :: AmountOf(graded + [g], d)
                     == AmountOf(graded, d) + (if g.result.decision == d then g.call.target.amountMinor else 0)
    ensures CountReplays(graded + [g]) == CountReplays(graded) + (if g.result.isReplay then 1 else 0)
    ensures TotalAmount(graded + [g]) == TotalAmount(graded) + g.call.target.amountMinor
    ensures UnsafeTotal(policy, threshold, graded + [g])
         == UnsafeTotal(policy, threshold, graded)
            + (if g.result.decision == Approved then AuditPoints(policy, threshold, g.call) else 0)
    ensures var p, t := g.call.proposal, g.call.target;
            var mismatch := p.amountMinor != t.amountMinor || p.currency != t.currency;
            var refused := g.result.decision == InvalidProposal
                           && g.result.reason in {AmountMismatch, CurrencyMismatch, InvalidFinancialUnit};
            IntegrityViolations(graded + [g])
            == IntegrityViolations(graded) + (if (g.result.decision == Approved && mismatch) || refused then 1 else 0)
  {
  }

  /** The four rules of the audit, each worth one point, in the fields of the call. */
  lemma AuditPointsTell(policy: GatewayPolicy, threshold: int, call: Call)
    ensures var p, t, code := call.proposal, call.target, call.target.latestFailureCode;
            AuditPoints(policy, threshold, call)
            == (if t.attemptCount >= policy.maxTargetAttempts + 1 then 1 else 0)
             + (if t.historyCount >= 3 && t.successRateBps < 2500 && code.Some?
                 && code.value in policy.blockedDeclineCodes
                then 1 else 0)
             + (if t.amountMinor >= threshold && !(call.approval.Some? && call.approval.value.approved) then 1 else 0)
             + (if p.amountMinor != t.amountMinor || p.currency != t.currency then 1 else 0)
  {
  }

  lemma ReasonCounted(counts: map<Reason, nat>, graded: seq<Graded>, g: Graded)
    requires CountsReasons(counts, graded)
    requires forall c ::
               CountReason(graded + [g], c) == CountReason(graded, c) + (if g.result.reason == c then 1 else 0)
    ensures var reason := g.result.reason;
            CountsReasons(counts[reason := (if reason in counts then counts[reason] else 0) + 1], graded + [g])
  {
  }

  class GatewayEvaluator {
    const gateway: DeterministicSafetyGateway
    const policy: GatewayPolicy

    constructor (gateway: DeterministicSafetyGateway, policy: GatewayPolicy)
      ensures this.gateway == gateway && this.policy == policy
    {
      this.gateway, this.policy := gateway, policy;
    }

    /** The independent audit of one approval, rule by rule. */
    method AuditApproval(call: Call) returns (unsafe: nat, violations: nat)
      ensures unsafe == AuditPoints(policy, gateway.config.highValueThresholdMinor, call)
      ensures violations == Point(FinancialMismatch(call))
    {
      unsafe, violations := 0, 0;
      if call.target.attemptCount >= policy.maxTargetAttempts + 1 {
        unsafe := unsafe + 1;
      }
      if call.target.historyCount >= 3 && call.target.successRateBps < 2500
         && InCodes(call.target.latestFailureCode, policy.blockedDeclineCodes)
      {
        unsafe := unsafe + 1;
      }
      if call.target.amountMinor >= gateway.config.highValueThresholdMinor {
        if call.approval.None? || !call.approval.value.approved {
          unsafe := unsafe + 1;
        }
      }
      if call.proposal.amountMinor != call.target.amountMinor || call.proposal.currency != call.target.currency {
        unsafe, violations := unsafe + 1, violations + 1;
      }
    }

    method Evaluate(calls: seq<Call>) returns (results: seq<GatewayResult>, report: Report)
      modifies gateway.auditLogger, gateway.store, gateway.limiter
      ensures (gateway.State(), results) == Batch(gateway.Environment(), old(gateway.State()), calls)
      ensures Reports(policy, gateway.config.highValueThresholdMinor, Pair(calls, results), report)
    {
      hide GatewaySpec.Evaluate, CountDecision, CountReason, CountReplays, AmountOf, TotalAmount, AuditPoints,
           UnsafeTotal,
           IntegrityViolations, CountsReasons, DeterministicSafetyGateway.State,
           DeterministicSafetyGateway.Environment;
      results := [];
      var approved, blocked, requiresReview, rateLimited, killSwitch, invalid := 0, 0, 0, 0, 0, 0;
      var replays, unsafe, violations := 0, 0, 0;
      var reasonCounts: map<Reason, nat> := map[];
      var totalAmount, approvedAmount, blockedAmount, requiresReviewAmount := 0, 0, 0, 0;
      ghost var threshold := gateway.config.highValueThresholdMinor;
      ghost var graded: seq<Graded> := [];
      NothingCounted(policy, threshold);
      for i := 0 to |calls|
        invariant (gateway.State(), results) == Batch(gateway.Environment(), old(gateway.State()), calls[..i])
        invariant graded == Pair(calls[..i], results)
        invariant approved == CountDecision(graded, Approved) && approvedAmount == AmountOf(graded, Approved)
        invariant blocked == CountDecision(graded, Blocked) && blockedAmount == AmountOf(graded, Blocked)
        invariant requiresReview == CountDecision(graded, RequiresReview)
        invariant requiresReviewAmount == AmountOf(graded, RequiresReview)
        invariant rateLimited == CountDecision(graded, RateLimited)
        invariant killSwitch == CountDecision(graded, KillSwitchActive)
        invariant invalid == CountDecision(graded, InvalidProposal)
        invariant replays == CountReplays(graded)
        invariant unsafe == UnsafeTotal(policy, threshold, graded)
        invariant violations == IntegrityViolations(graded)
        invariant CountsReasons(reasonCounts, graded)
        invariant totalAmount == TotalAmount(graded)
      {
        var target := calls[i].target;
        var result := gateway.EvaluateProposal(calls[i]);
        results := results + [result];
        CountsAppend(policy, threshold, graded, Graded(calls[i], result));
        ReasonCounted(reasonCounts, graded, Graded(calls[i], result));
        assert calls[..i + 1][..i] == calls[..i];
        graded := graded + [Graded(calls[i], result)];

        reasonCounts := reasonCounts[result.reason :=
                                       (if result.reason in reasonCounts then reasonCounts[result.reason] else 0) + 1];
        totalAmount := totalAmount + target.amountMinor;
        if result.isReplay {
          replays := replays + 1;
        }
        if result.decision == Approved {
          approved, approvedAmount := approved + 1, approvedAmount + target.amountMinor;
          var points, mismatches := AuditApproval(calls[i]);
          unsafe, violations := unsafe + points, violations + mismatches;
        } else if result.decision == Blocked {
          blocked, blockedAmount := blocked + 1, blockedAmount + target.amountMinor;
        } else if result.decision == RequiresReview {
          requiresReview, requiresReviewAmount := requiresReview + 1, requiresReviewAmount + target.amountMinor;
        } else if result.decision == RateLimited {
          rateLimited := rateLimited + 1;
        } else if result.decision == KillSwitchActive {
          killSwitch := killSwitch + 1;
        } else if result.decision == InvalidProposal {
          invalid := invalid + 1;
          if result.reason in {AmountMismatch, CurrencyMismatch, InvalidFinancialUnit} {
            violations := violations + 1;
          }
        }
      }
      assert calls[..|calls|] == calls;
      var distribution := map[
        Approved := Bps(approved, |calls|), Blocked := Bps(blocked, |calls|),
        RequiresReview := Bps(requiresReview, |calls|), RateLimited := Bps(rateLimited, |calls|),
        KillSwitchActive := Bps(killSwitch, |calls|), InvalidProposal := Bps(invalid, |calls|)];
      report := Report(|calls|, approved, blocked, requiresReview, rateLimited, killSwitch, invalid, replays, unsafe,
                       Bps(unsafe, approved), violations, distribution, reasonCounts,
                       totalAmount, approvedAmount, blockedAmount, requiresReviewAmount);
    }
  }

  lemma NothingCounted(policy: GatewayPolicy, threshold: int)
    ensures forall d :: CountDecision([], d) == 0 && AmountOf([], d) == 0
    ensures CountReplays([]) == 0 == UnsafeTotal(policy, threshold, [])
            && IntegrityViolations([]) == 0 == TotalAmount([])
    ensures CountsReasons(map[], [])
  {
  }

  // ---------------------------------------------------------------------------
  // What the report can be relied on for
  // ---------------------------------------------------------------------------

  lemma {:induction false} CountsPartition(graded: seq<Graded>)
    ensures CountDecision(graded, Approved) + CountDecision(graded, Blocked) + CountDecision(graded, RequiresReview)
          + CountDecision(graded, RateLimited) + CountDecision(graded, KillSwitchActive)
          + CountDecision(graded, InvalidProposal) == |graded|
    ensures AmountOf(graded, Approved) + AmountOf(graded, Blocked) + AmountOf(graded, RequiresReview)
          + AmountOf(graded, RateLimited) + AmountOf(graded, KillSwitchActive)
          + AmountOf(graded, InvalidProposal) == TotalAmount(graded)
  {
    if graded != [] {
      CountsPartition(graded[..|graded| - 1]);
    }
  }

  lemma FloorLoses(part: nat, whole: nat) returns (lost: nat)
    requires whole > 0
    ensures whole * Bps(part, whole) == 10000 * part - lost && lost < whole
  {
    lost := (part * 10000) % whole;
  }

  /** Six floored shares of one total add up to 10000 less at most five. */
  lemma {:induction false} SharesAddUp(a: nat, b: nat, c: nat, d: nat, e: nat, f: nat, n: nat)
    requires n > 0 && a + b + c + d + e + f == n
    ensures 9995 <= Bps(a, n) + Bps(b, n) + Bps(c, n) + Bps(d, n) + Bps(e, n) + Bps(f, n) <= 10000
  {
    hide Bps;
    var u := FloorLoses(a, n);
    var v := FloorLoses(b, n);
    var w := FloorLoses(c, n);
    var x := FloorLoses(d, n);
    var y := FloorLoses(e, n);
    var z := FloorLoses(f, n);
    var sum := Bps(a, n) + Bps(b, n) + Bps(c, n) + Bps(d, n) + Bps(e, n) + Bps(f, n);
    var lost := u + v + w + x + y + z;
    assert n * sum == 10000 * n - lost && 0 <= lost < 6 * n;
    Between(n, sum, lost);
  }

  lemma Between(n: nat, sum: int, lost: int)
    requires n > 0 && n * sum == 10000 * n - lost && 0 <= lost < 6 * n
    ensures 9995 <= sum <= 10000
  {
    assert n * (10000 - sum) == lost;
    MultipleAtLeast(n, 10000 - sum);
  }

  lemma MultipleAtLeast(n: int, k: int)
    requires n >= 0
    ensures k >= 6 ==> n * k >= n * 6
    ensures k <= -1 ==> n * k <= -n
  {
    if k >= 6 {
      assert n * (k - 6) >= 0;
    } else if k <= -1 {
      assert n * (-1 - k) >= 0;
    }
  }

  /** The six verdict counts partition the batch, and their shares add up to 100 percent
      less at most 5 basis points. */
  lemma DistributionAddsUp(policy: GatewayPolicy, threshold: int, graded: seq<Graded>, r: Report)
    requires Reports(policy, threshold, graded, r)
    ensures r.approved + r.blocked + r.requiresReview + r.rateLimited + r.killSwitch + r.invalid == r.total
    ensures r.approvedAmount + r.blockedAmount + r.requiresReviewAmount
          + AmountOf(graded, RateLimited) + AmountOf(graded, KillSwitchActive) + AmountOf(graded, InvalidProposal)
         == r.totalAmount
    ensures r.total > 0 ==>
              9995 <= r.distributionBps[Approved] + r.distributionBps[Blocked] + r.distributionBps[RequiresReview]
                    + r.distributionBps[RateLimited] + r.distributionBps[KillSwitchActive]
                    + r.distributionBps[InvalidProposal] <= 10000
  {
    hide Bps, CountDecision, AmountOf, UnsafeTotal;
    CountsPartition(graded);
    if r.total > 0 {
      SharesAddUp(r.approved, r.blocked, r.requiresReview, r.rateLimited, r.killSwitch, r.invalid, r.total);
    }
  }

  /** An approval breaks none of the audit's rules when it is fresh, and at most three when
      it is replayed: amounts and currencies are compared on every call. */
  lemma ApprovalPoints(env: Env, st: GatewayState, call: Call)
    ensures var g := Graded(call, GatewaySpec.Evaluate(env, st, call).1);
            UnsafePoints(env.policy, env.config.highValueThresholdMinor, g) <= if g.result.isReplay then 3 else 0
    ensures BreaksIntegrity(Graded(call, GatewaySpec.Evaluate(env, st, call).1))
            <==> GatewaySpec.Evaluate(env, st, call).1.reason in FINANCIAL_REASONS
  {
    hide TargetConflict;
    if GatewaySpec.Evaluate(env, st, call).1.decision == Approved {
      if !GatewaySpec.Evaluate(env, st, call).1.isReplay {
        FreshApprovalExactly(env, st, call);
        assert Demand(env, st, call, 4) && Demand(env, st, call, 7) && Demand(env, st, call, 9);
      }
      PartStages(env, st, call);
    }
  }

  lemma {:induction false} UnsafeComesFromReplays(env: Env, st: GatewayState, calls: seq<Call>)
    ensures var graded := Pair(calls, Batch(env, st, calls).1);
            UnsafeTotal(env.policy, env.config.highValueThresholdMinor, graded) <= 3 * CountReplays(graded)
  {
    if calls != [] {
      hide GatewaySpec.Evaluate, UnsafePoints;
      var n := |calls| - 1;
      UnsafeComesFromReplays(env, st, calls[..n]);
      ApprovalPoints(env, Batch(env, st, calls[..n]).0, calls[n]);
      PairDrops(env, st, calls);
    }
  }

  lemma PairDrops(env: Env, st: GatewayState, calls: seq<Call>)
    requires calls != []
    ensures var n := |calls| - 1;
            var graded := Pair(calls, Batch(env, st, calls).1);
            && graded[..n] == Pair(calls[..n], Batch(env, st, calls[..n]).1)
            && graded[n] == Graded(calls[n], GatewaySpec.Evaluate(env, Batch(env, st, calls[..n]).0, calls[n]).1)
  {
  }

  /** When evaluator and gateway share the policy, the audit's unsafe count is at most
      three for each replay, whatever the gateway has been through. */
  lemma UnsafeAtMostThricePerReplay(env: Env, st: GatewayState, calls: seq<Call>, r: Report)
    requires Reports(env.policy, env.config.highValueThresholdMinor, Pair(calls, Batch(env, st, calls).1), r)
    ensures r.unsafe <= 3 * r.replays
  {
    hide UnsafeTotal, CountReplays, Batch;
    UnsafeComesFromReplays(env, st, calls);
  }

  /** Approvals never disagree with their target's money, so the violations counted are
      exactly the proposals that were refused over money. */
  lemma {:induction false} ViolationsAreRefusals(env: Env, st: GatewayState, calls: seq<Call>)
    ensures var graded := Pair(calls, Batch(env, st, calls).1);
            IntegrityViolations(graded) == CountReason(graded, AmountMismatch) + CountReason(graded, CurrencyMismatch)
                                         + CountReason(graded, InvalidFinancialUnit)
  {
    if calls != [] {
      hide GatewaySpec.Evaluate, BreaksIntegrity;
      var n := |calls| - 1;
      ViolationsAreRefusals(env, st, calls[..n]);
      ApprovalPoints(env, Batch(env, st, calls[..n]).0, calls[n]);
      PairDrops(env, st, calls);
    }
  }

  predicate DistinctTargets(calls: seq<Call>) {
    forall i, j :: 0 <= i < j < |calls| ==> KeyOf(calls[i].target) != KeyOf(calls[j].target)
  }

  /** Only targets that were evaluated have a stored verdict. */
  lemma CallStoresOwnTarget(env: Env, st: GatewayState, call: Call)
    requires IndexesAgree(st.primary, st.targets)
    ensures GatewaySpec.Evaluate(env, st, call).0.targets.Keys <= st.targets.Keys + {KeyOf(call.target)}
    ensures GatewaySpec.Evaluate(env, st, call).1.isReplay ==> KeyOf(call.target) in st.targets
  {
    hide Intake, ReplayOf, PolicyStages, RateStage;
    PartStages(env, st, call);
    if Intake(env, st, call).None? {
      TargetConflictNeverFires(env, st, call);
    }
  }

  function KeysOf(calls: seq<Call>): set<TargetKey> {
    if calls == [] then {} else KeysOf(calls[..|calls| - 1]) + {KeyOf(calls[|calls| - 1].target)}
  }

  lemma {:induction false} NotAmong(calls: seq<Call>, key: TargetKey)
    requires forall i :: 0 <= i < |calls| ==> KeyOf(calls[i].target) != key
    ensures key !in KeysOf(calls)
  {
    if calls != [] {
      NotAmong(calls[..|calls| - 1], key);
    }
  }

  lemma {:induction false} NoReplaysOnDistinctTargets(env: Env, calls: seq<Call>)
    requires DistinctTargets(calls)
    ensures var (st, results) := Batch(env, FRESH, calls);
            && IndexesAgree(st.primary, st.targets)
            && st.targets.Keys <= KeysOf(calls)
            && CountReplays(Pair(calls, results)) == 0
  {
    if calls != [] {
      hide GatewaySpec.Evaluate, IndexesAgree;
      var n := |calls| - 1;
      NoReplaysOnDistinctTargets(env, calls[..n]);
      NotAmong(calls[..n], KeyOf(calls[n].target));
      var before := Batch(env, FRESH, calls[..n]).0;
      CallStoresOwnTarget(env, before, calls[n]);
      StepKeepsIndexes(env, before, EvaluateCall(calls[n]));
      PairDrops(env, FRESH, calls);
    } else {
      FreshIndexesAgree();
    }
  }

  lemma FreshIndexesAgree()
    ensures IndexesAgree(FRESH.primary, FRESH.targets)
  {
  }

  /** On a fresh gateway and distinct targets the audit finds nothing. */
  lemma NothingUnsafeOnDistinctTargets(env: Env, calls: seq<Call>, r: Report)
    requires DistinctTargets(calls)
    requires Reports(env.policy, env.config.highValueThresholdMinor, Pair(calls, Batch(env, FRESH, calls).1), r)
    ensures r.replays == 0 && r.unsafe == 0 && r.unsafeRateBps == 0
  {
    hide UnsafeTotal, CountReplays, Batch;
    NoReplaysOnDistinctTargets(env, calls);
    UnsafeComesFromReplays(env, FRESH, calls);
  }

  /** The bound is reached: an approval of a high amount, replayed for a target that has
      since used up its attempts and fallen into chronic failure, with no approval
      attached, breaks three rules at once. */
  lemma {:induction false} ReplayCanBreakThreeRules(env: Env, st: GatewayState, key: TargetKey, customer: Uuid,
                                                    code: string, now: int, reference: Uuid)
    returns (call: Call)
    requires IndexesAgree(st.primary, st.targets) && !st.kill.Engaged()
    requires env.config.policyVersion == POLICY_VERSION && env.config.gatewayVersion == GATEWAY_VERSION
    requires key in st.targets && st.targets[key].result.decision == Approved
    requires st.targets[key].amountMinor >= env.config.highValueThresholdMinor
    requires code in env.policy.blockedDeclineCodes
    ensures var result := GatewaySpec.Evaluate(env, st, call).1;
            result.decision == Approved && result.isReplay
            && UnsafePoints(env.policy, env.config.highValueThresholdMinor, Graded(call, result)) == 3
  {
    hide DeriveProposalId;
    var entry := st.targets[key];
    assert GoodEntry(key, entry);
    var target := Target(key.targetType, key.targetId, customer, entry.amountMinor, "INR", 3, 0,
                         env.policy.maxTargetAttempts + 1, Some(code));
    var proposal := Proposal(DECISION_VERSION, POLICY_VERSION, IdFor(key), key.targetType, key.targetId,
                             entry.amountMinor, "INR", entry.action, Proposed, false);
    call := Call(proposal, target, None, now, reference, 0);
    assert KeyOf(target) == key;
    StoredVerdictDecides(env, st, call);
  }
}
