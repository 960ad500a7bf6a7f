/** Why one dispatch per target needs a store that is not cleared: a concrete run with one
    clear in which a second proposal for a dispatched target is approved afresh and, under
    another action, dispatched again. `EveryRun` says exactly when that happens. */
module Counterexample {
  import opened Identity
  import opened Domain
  import opened RateLimit
  import opened GatewaySpec
  import opened ExecutionSpec
  import opened ExecutionRuns
  import opened EndToEnd

  const ENV := Env(DEFAULT_GATEWAY_CONFIG, DEFAULT_GATEWAY_POLICY, Limits(3, 3600))

  const TARGET := Target("payment", Random(1), Random(2), 1000, "INR", 0, 0, 0, None)

  function CallFor(action: Action): Call {
    Call(Proposal(DECISION_VERSION, POLICY_VERSION,
                  DeriveProposalId(DECISION_VERSION, POLICY_VERSION, TARGET.targetType, TARGET.targetId),
                  TARGET.targetType, TARGET.targetId, TARGET.amountMinor, TARGET.currency, action, Proposed, false),
         TARGET, None, 0, Random(3), 0)
  }

  const FIRST := CallFor(RetryPayment)
  const SECOND := CallFor(RequestPaymentMethodUpdate)

  const EVENTS: seq<SystemEvent> := [
    AtGateway(EvaluateCall(FIRST)),
    ExecuteIssued(0),
    AtGateway(ClearStore),
    AtGateway(EvaluateCall(SECOND)),
    ExecuteIssued(1)]

  /** A gateway with an empty store and fewer than three attempts on record approves the call. */
  lemma ApprovedAfresh(gate: GatewayState, call: Call)
    requires call == FIRST || call == SECOND
    requires gate.primary == map[] && gate.targets == map[] && !gate.kill.Engaged()
    requires |Since(Times(gate.limiter.targetTimes, KeyOf(TARGET)), -3600000)| < 3
    requires |Since(Times(gate.limiter.customerTimes, TARGET.customerId), -3600000)| < 9
    ensures FreshApproval(Judge(ENV, gate, call))
  {
  }

  /** The limiter after the first approval holds that one attempt. */
  lemma OneAttempt()
    ensures var gate := Evaluate(ENV, FRESH, FIRST).0;
            && FreshApproval(Judge(ENV, FRESH, FIRST))
            && gate.kill == FRESH.kill
            && |Since(Times(gate.limiter.targetTimes, KeyOf(TARGET)), -3600000)| < 3
            && |Since(Times(gate.limiter.customerTimes, TARGET.customerId), -3600000)| < 9
  {
  }

  /** An approved call, executed under a key that is free, reaches the provider. */
  lemma Dispatches(gate: GatewayState, w: World, call: Call)
    requires call == FIRST || call == SECOND
    requires gate.primary == map[] && gate.targets == map[] && FreshApproval(Judge(ENV, gate, call))
    requires w.exec.records == []
    requires var req := RequestOf(Issue(call.proposal, call.target, Evaluate(ENV, gate, call).1));
             RequestKey(DEFAULT_EXECUTION_CONFIG, req) !in w.exec.inFlight
    ensures var req := RequestOf(Issue(call.proposal, call.target, Evaluate(ENV, gate, call).1));
            var after := AfterBegin(DEFAULT_EXECUTION_CONFIG, w, req);
            && after.exec.records == []
            && after.exec.inFlight == w.exec.inFlight + {RequestKey(DEFAULT_EXECUTION_CONFIG, req)}
            && |after.exec.requests| == |w.exec.requests| + 1
            && after.exec.requests[..|w.exec.requests|] == w.exec.requests
            && TargetOfRequest(after.exec.requests[|w.exec.requests|]) == KeyOf(TARGET)
  {
    var result := Evaluate(ENV, gate, call).1;
    var req := RequestOf(Issue(call.proposal, call.target, result));
    RecheckAcceptsExactly(ENV, DEFAULT_EXECUTION_CONFIG, gate, call);
    hide Evaluate, Revalidate, RequestKey, DeriveProposalId;
    assert Revalidate(DEFAULT_EXECUTION_CONFIG, req.proposal, req.target, req.result).None?;
    TakeKeyShape(w.exec, req, RequestKey(DEFAULT_EXECUTION_CONFIG, req), |w.ledger|);
  }

  lemma KeysOfActionsDiffer(r1: GatewayResult, r2: GatewayResult)
    ensures RequestKey(DEFAULT_EXECUTION_CONFIG, RequestOf(Issue(FIRST.proposal, TARGET, r1)))
         != RequestKey(DEFAULT_EXECUTION_CONFIG, RequestOf(Issue(SECOND.proposal, TARGET, r2)))
  {
  }

  /** One clear between two proposals, and a target is dispatched twice. */
  lemma ClearingAllowsSecondDispatch()
    ensures var requests := RunSystem(ENV, DEFAULT_EXECUTION_CONFIG, EVENTS).world.exec.requests;
            |requests| == 2 && TargetOfRequest(requests[0]) == TargetOfRequest(requests[1]) == KeyOf(TARGET)
  {
    hide Evaluate, AfterBegin, Judge, RequestKey;
    var config := DEFAULT_EXECUTION_CONFIG;
    OneAttempt();
    var (gate1, result1) := Evaluate(ENV, FRESH, FIRST);
    Dispatches(FRESH, EMPTY_WORLD, FIRST);
    var world2 := AfterBegin(config, EMPTY_WORLD, RequestOf(Issue(FIRST.proposal, TARGET, result1)));
    var gate3 := gate1.(primary := map[], targets := map[]);
    ApprovedAfresh(gate3, SECOND);
    var result4 := Evaluate(ENV, gate3, SECOND).1;
    KeysOfActionsDiffer(result1, result4);
    Dispatches(gate3, world2, SECOND);
    RunOfFive(config);
  }

  lemma {:induction false} RunOfFive(config: ExecutionConfig)
    ensures var s1 := StepSystem(ENV, config, System(FRESH, [], EMPTY_WORLD), EVENTS[0]);
            var s2 := StepSystem(ENV, config, s1, EVENTS[1]);
            var s3 := StepSystem(ENV, config, s2, EVENTS[2]);
            var s4 := StepSystem(ENV, config, s3, EVENTS[3]);
            RunSystem(ENV, config, EVENTS) == StepSystem(ENV, config, s4, EVENTS[4])
  {
    hide StepSystem;
    assert EVENTS[..4][..3] == EVENTS[..3] && EVENTS[..3][..2] == EVENTS[..2];
    assert EVENTS[..2][..1] == EVENTS[..1] && EVENTS[..1][..0] == [];
    assert RunSystem(ENV, config, []) == System(FRESH, [], EMPTY_WORLD);
    assert RunSystem(ENV, config, EVENTS[..1]) == StepSystem(ENV, config, RunSystem(ENV, config, []), EVENTS[0]);
    assert RunSystem(ENV, config, EVENTS[..2])
        == StepSystem(ENV, config, RunSystem(ENV, config, EVENTS[..1]), EVENTS[1]);
    assert RunSystem(ENV, config, EVENTS[..3])
        == StepSystem(ENV, config, RunSystem(ENV, config, EVENTS[..2]), EVENTS[2]);
    assert RunSystem(ENV, config, EVENTS[..4])
        == StepSystem(ENV, config, RunSystem(ENV, config, EVENTS[..3]), EVENTS[3]);
  }
}
