/** The gateway and the execution layer together. Every execution request carries the
    proposal, the target and the result of one gateway call, and no key of its own. Between
    calls anything may happen: replays, operator actions, answers, dead tasks, webhooks. */
module EndToEnd {
  import opened Identity
  import opened Domain
  import opened GatewaySpec
  import opened GatewayRuns
  import opened StateMachine
  import opened ExecutionSpec
  import opened ExecutionRuns

  /** What the caller of the gateway passes on to the execution service. */
  datatype Issue = Issue(proposal: Proposal, target: Target, result: GatewayResult)

  datatype System = System(gate: GatewayState, issued: seq<Issue>, world: World)

  datatype SystemEvent =
    | AtGateway(event: Event)
    | ExecuteIssued(i: nat)
    | AnswerArrives(id: nat, outcome: ProviderOutcome)
    | TaskAbandoned(id: nat)
    | WebhookArrives(handler: nat, webhook: Webhook)

  function RequestOf(issue: Issue): ExecutionRequest {
    ExecutionRequest(issue.proposal, issue.target, issue.result, None)
  }

  function StepSystem(env: Env, config: ExecutionConfig, s: System, e: SystemEvent): System {
    match e
    case AtGateway(EvaluateCall(call)) =>
      var (gate, result) := Evaluate(env, s.gate, call);
      s.(gate := gate, issued := s.issued + [Issue(call.proposal, call.target, result)])
    case AtGateway(event) => s.(gate := Step(env, s.gate, event))
    case ExecuteIssued(i) =>
      if i < |s.issued| then s.(world := StepWorld(config, s.world, BeginExecution(RequestOf(s.issued[i])))) else s
    case AnswerArrives(id, outcome) => s.(world := StepWorld(config, s.world, ProviderAnswers(id, outcome)))
    case TaskAbandoned(id) => s.(world := StepWorld(config, s.world, TaskDies(id)))
    case WebhookArrives(handler, webhook) => s.(world := StepWorld(config, s.world, DeliverWebhook(handler, webhook)))
  }

  function RunSystem(env: Env, config: ExecutionConfig, events: seq<SystemEvent>): System {
    if events == [] then System(FRESH, [], EMPTY_WORLD)
    else StepSystem(env, config, RunSystem(env, config, events[..|events| - 1]), events[|events| - 1])
  }

  predicate NoStoreClears(events: seq<SystemEvent>) {
    forall i :: 0 <= i < |events| ==> events[i] != AtGateway(ClearStore)
  }

  // ---------------------------------------------------------------------------
  // The recheck against the gateway
  // ---------------------------------------------------------------------------

  /** The twelve demands of the recheck, each on its own, for any proposal, target and result. */
  predicate RecheckDemand(config: ExecutionConfig, p: Proposal, t: Target, r: GatewayResult, i: nat) {
    var expected := DeriveProposalId(p.decisionVersion, p.policyVersion, p.targetType, p.targetId);
    match i
    case 0 => r.decision == Approved
    case 1 => r.eligible
    case 2 => r.reason == ApprovedForExecutionLayer || r.reason == IdempotentReplayApproved
    case 3 =>
      && p.decisionVersion == DECISION_VERSION && p.policyVersion == POLICY_VERSION
      && r.gatewayVersion == GATEWAY_VERSION
    case 4 => p.proposalId == expected && r.proposalId == expected
    case 5 => p.targetId == t.targetId && r.targetId == t.targetId
    case 6 => p.amountMinor == t.amountMinor
    case 7 => p.amountMinor > 0
    case 8 => p.currency == "INR" && t.currency == "INR"
    case 9 => p.action != NoAction && p.action != HumanReview
    case 10 => t.attemptCount <= config.maxAttempts
    case 11 => config.mode == TestMode || config.mode == SimulationMode
    case _ => true
  }

  const DENIALS: seq<AuthorizationError> := [
    NotApproved, NotEligible, UnauthorizedReason, VersionMismatch, IdentityMismatch, TargetIdMismatch,
    RequestAmountMismatch, AmountNotPositive, UnsupportedCurrency, ActionNotExecutable, AttemptCeilingExceeded,
    ModeProhibited]

  /** The recheck accepts exactly when all twelve demands are met, and denies with the error
      of the first one that is not. */
  lemma RecheckExactly(config: ExecutionConfig, p: Proposal, t: Target, r: GatewayResult)
    ensures Revalidate(config, p, t, r).None? <==> forall i :: 0 <= i < 12 ==> RecheckDemand(config, p, t, r, i)
    ensures forall i :: 0 <= i < 12 ==>
              (Revalidate(config, p, t, r) == Some(DENIALS[i]) <==>
                 !RecheckDemand(config, p, t, r, i) && forall j :: 0 <= j < i ==> RecheckDemand(config, p, t, r, j))
  {
    var k := FirstUnmet(config, p, t, r);
    hide Revalidate, RecheckDemand;
  }

  /** The position of the first unmet demand, or twelve, decides the answer. */
  lemma FirstUnmet(config: ExecutionConfig, p: Proposal, t: Target, r: GatewayResult) returns (k: nat)
    ensures k <= 12 && Revalidate(config, p, t, r) == if k < 12 then Some(DENIALS[k]) else None
    ensures forall j :: 0 <= j < k ==> RecheckDemand(config, p, t, r, j)
    ensures k < 12 ==> !RecheckDemand(config, p, t, r, k)
  {
    hide DeriveProposalId;
    var met := (i: nat) => RecheckDemand(config, p, t, r, i);
    k :=
      if !met(0) then 0 else if !met(1) then 1 else if !met(2) then 2 else if !met(3) then 3
      else if !met(4) then 4 else if !met(5) then 5 else if !met(6) then 6 else if !met(7) then 7
      else if !met(8) then 8 else if !met(9) then 9 else if !met(10) then 10 else if !met(11) then 11 else 12;
  }

  /** Given the very call it belongs to, the recheck accepts a gateway result exactly when
      it is an approval and the three limits that only the execution layer has are met. */
  lemma RecheckAcceptsExactly(env: Env, config: ExecutionConfig, gate: GatewayState, call: Call)
    requires IndexesAgree(gate.primary, gate.targets)
    ensures var r := Evaluate(env, gate, call).1;
            Revalidate(config, call.proposal, call.target, r).None?
            <==> r.decision == Approved
                 && call.proposal.currency == "INR"
                 && call.target.attemptCount <= config.maxAttempts
                 && config.mode in {TestMode, SimulationMode}
  {
    hide DeriveProposalId;
    if Evaluate(env, gate, call).1.decision == Approved {
      ApprovedCallFacts(env, gate, call);
    }
  }

  lemma ApprovedCallFacts(env: Env, gate: GatewayState, call: Call)
    requires IndexesAgree(gate.primary, gate.targets)
    requires Evaluate(env, gate, call).1.decision == Approved
    ensures var r := Evaluate(env, gate, call).1;
            && r.eligible && r.reason in {ApprovedForExecutionLayer, IdempotentReplayApproved}
            && r.gatewayVersion == GATEWAY_VERSION && r.proposalId == call.proposal.proposalId
            && r.targetId == call.target.targetId
    ensures var p, t := call.proposal, call.target;
            && p.decisionVersion == DECISION_VERSION && p.policyVersion == POLICY_VERSION
            && p.proposalId == DeriveProposalId(p.decisionVersion, p.policyVersion, p.targetType, p.targetId)
            && p.targetId == t.targetId && p.targetType == t.targetType
            && 0 < p.amountMinor == t.amountMinor && p.currency == t.currency
            && p.action in EXECUTABLE_ACTIONS
  {
    hide DeriveProposalId;
    ApprovalsComeFromTheStore(env, gate, call);
    IntakeOfApproved(env, gate, call);
    StoredActionExecutable(env, gate, call);
  }

  lemma IntakeOfApproved(env: Env, gate: GatewayState, call: Call)
    requires Evaluate(env, gate, call).1.decision == Approved
    ensures Intake(env, gate, call).None?
    ensures Evaluate(env, gate, call).1.reason in {ApprovedForExecutionLayer, IdempotentReplayApproved}
    ensures Evaluate(env, gate, call).1.gatewayVersion == GATEWAY_VERSION
    ensures var p, t := call.proposal, call.target;
            && p.decisionVersion == DECISION_VERSION && p.policyVersion == POLICY_VERSION
            && p.targetId == t.targetId && p.targetType == t.targetType
            && 0 < p.amountMinor == t.amountMinor && p.currency == t.currency
            && p.proposalId == IdFor(KeyOf(t))
  {
    hide DeriveProposalId;
    PartStages(env, gate, call);
    if Intake(env, gate, call).None? {
      IntakeFacts(env, gate, call);
    }
  }

  lemma StoredActionExecutable(env: Env, gate: GatewayState, call: Call)
    requires IndexesAgree(gate.primary, gate.targets)
    requires Evaluate(env, gate, call).1.decision == Approved
    ensures call.proposal.action in EXECUTABLE_ACTIONS
  {
    hide Evaluate;
    ApprovalsComeFromTheStore(env, gate, call);
    StepKeepsIndexes(env, gate, EvaluateCall(call));
    var after := Evaluate(env, gate, call).0;
    assert GoodEntry(KeyOf(call.target), after.targets[KeyOf(call.target)]);
  }

  // ---------------------------------------------------------------------------
  // Approvals and executions point at the stored verdict
  // ---------------------------------------------------------------------------

  /** The stored verdict for a target approves this action for this amount. */
  predicate Backed(targets: map<TargetKey, TargetEntry>, key: TargetKey, action: Action, amount: int) {
    key in targets && targets[key].result.decision == Approved
    && targets[key].action == action && targets[key].amountMinor == amount
  }

  predicate BackedIssue(targets: map<TargetKey, TargetEntry>, issue: Issue) {
    issue.result.decision == Approved ==>
      && Backed(targets, KeyOf(issue.target), issue.proposal.action, issue.proposal.amountMinor)
      && issue.proposal.amountMinor == issue.target.amountMinor
      && issue.proposal.proposalId == IdFor(KeyOf(issue.target))
  }

  function TargetOf(r: Record): TargetKey {
    TargetKey(r.targetType, r.targetId)
  }

  function TargetOfRequest(q: ProviderRequest): TargetKey {
    TargetKey(q.targetType, q.targetId)
  }

  /** The key under which a target is executed, given the one action approved for it. */
  function KeyFor(config: ExecutionConfig, key: TargetKey, action: Action): string {
    DeriveExecutionKey(IdFor(key), config.gatewayVersion, config.policyVersion, ActionName(action))
  }

  predicate BackedRecord(targets: map<TargetKey, TargetEntry>, config: ExecutionConfig, r: Record) {
    Backed(targets, TargetOf(r), r.action, r.amountMinor) && r.key == KeyFor(config, TargetOf(r), r.action)
  }

  predicate BackedIssues(targets: map<TargetKey, TargetEntry>, issued: seq<Issue>) {
    forall i :: 0 <= i < |issued| ==> BackedIssue(targets, issued[i])
  }

  predicate BackedLedger(targets: map<TargetKey, TargetEntry>, config: ExecutionConfig, ledger: seq<Record>) {
    forall i :: 0 <= i < |ledger| ==> BackedRecord(targets, config, ledger[i])
  }

  predicate Keeps(targets: map<TargetKey, TargetEntry>, later: map<TargetKey, TargetEntry>) {
    forall key :: key in targets ==> key in later && later[key] == targets[key]
  }

  lemma BackingLasts(targets: map<TargetKey, TargetEntry>, later: map<TargetKey, TargetEntry>, config: ExecutionConfig,
                     issued: seq<Issue>, ledger: seq<Record>)
    requires Keeps(targets, later) && BackedIssues(targets, issued) && BackedLedger(targets, config, ledger)
    ensures BackedIssues(later, issued) && BackedLedger(later, config, ledger)
  {
  }

  // ---------------------------------------------------------------------------
  // Approved money
  // ---------------------------------------------------------------------------

  function ApprovedAmount(a: AuditRecord): int {
    if IsFreshApproval(a) then a.amountMinor else 0
  }

  /** The money the audit log shows as freshly approved. */
  function ApprovedTotal(log: seq<AuditRecord>): int {
    if log == [] then 0 else ApprovedTotal(log[..|log| - 1]) + ApprovedAmount(log[|log| - 1])
  }

  /** The part of it that was approved for these targets. */
  function ApprovedFor(log: seq<AuditRecord>, among: set<TargetKey>): int {
    if log == [] then 0
    else
      var a := log[|log| - 1];
      ApprovedFor(log[..|log| - 1], among) + (if KeyOfRecord(a) in among then ApprovedAmount(a) else 0)
  }

  function TargetsOf(requests: seq<ProviderRequest>): set<TargetKey> {
    if requests == [] then {} else TargetsOf(requests[..|requests| - 1]) + {TargetOfRequest(requests[|requests| - 1])}
  }

  lemma ApprovedForAppend(log: seq<AuditRecord>, a: AuditRecord, among: set<TargetKey>)
    ensures ApprovedFor(log + [a], among)
         == ApprovedFor(log, among) + (if KeyOfRecord(a) in among then ApprovedAmount(a) else 0)
  {
  }

  lemma {:induction false} ApprovedForOneMore(log: seq<AuditRecord>, among: set<TargetKey>, key: TargetKey)
    requires key !in among
    ensures ApprovedFor(log, among + {key}) == ApprovedFor(log, among) + ApprovedFor(log, {key})
  {
    if log != [] {
      ApprovedForOneMore(log[..|log| - 1], among, key);
    }
  }

  lemma {:induction false} ApprovedForAtMostTotal(log: seq<AuditRecord>, among: set<TargetKey>)
    requires forall i :: 0 <= i < |log| ==> ApprovedAmount(log[i]) >= 0
    ensures ApprovedFor(log, among) <= ApprovedTotal(log)
  {
    if log != [] {
      ApprovedForAtMostTotal(log[..|log| - 1], among);
    }
  }

  lemma {:induction false} TargetDispatched(requests: seq<ProviderRequest>, key: TargetKey) returns (q: nat)
    requires key in TargetsOf(requests)
    ensures q < |requests| && TargetOfRequest(requests[q]) == key
  {
    var n := |requests| - 1;
    if TargetOfRequest(requests[n]) == key {
      q := n;
    } else {
      q := TargetDispatched(requests[..n], key);
    }
  }

  function StoredApproval(targets: map<TargetKey, TargetEntry>, key: TargetKey): int {
    if key in targets && targets[key].result.decision == Approved then targets[key].amountMinor else 0
  }

  /** For each target the log shows the money of its stored approval, once. */
  ghost predicate ApprovedOnce(log: seq<AuditRecord>, targets: map<TargetKey, TargetEntry>) {
    && (forall key :: ApprovedFor(log, {key}) == StoredApproval(targets, key))
    && (forall i :: 0 <= i < |log| ==> ApprovedAmount(log[i]) >= 0)
  }

  /** What a call adds to the log and to the stored verdicts. */
  lemma CallApproves(env: Env, gate: GatewayState, call: Call) returns (a: AuditRecord)
    requires IndexesAgree(gate.primary, gate.targets)
    ensures Evaluate(env, gate, call).0.log == gate.log + [a]
    ensures Keeps(gate.targets, Evaluate(env, gate, call).0.targets)
    ensures IsFreshApproval(a) ==> KeyOfRecord(a) !in gate.targets && a.amountMinor > 0
    ensures forall key :: StoredApproval(Evaluate(env, gate, call).0.targets, key)
                       == StoredApproval(gate.targets, key) + (if key == KeyOfRecord(a) then ApprovedAmount(a) else 0)
  {
    hide Intake, ReplayStage, PolicyStages, RateStage, IdFor, LimiterAfter;
    a := AuditOf(call, Evaluate(env, gate, call).1);
    PartStages(env, gate, call);
    if Remembered(Judge(env, gate, call)) {
      RememberedIsNew(env, gate, call);
    }
  }

  lemma AppendKeepsApprovedOnce(log: seq<AuditRecord>, a: AuditRecord, targets: map<TargetKey, TargetEntry>,
                                later: map<TargetKey, TargetEntry>)
    requires ApprovedOnce(log, targets) && ApprovedAmount(a) >= 0
    requires forall key :: StoredApproval(later, key)
                        == StoredApproval(targets, key) + (if key == KeyOfRecord(a) then ApprovedAmount(a) else 0)
    ensures ApprovedOnce(log + [a], later)
  {
  }

  /** The money sent to the provider is exactly the money approved for the targets that
      were dispatched, and each of them has a stored verdict. */
  ghost predicate Match(gate: GatewayState, requests: seq<ProviderRequest>) {
    && DispatchedTotal(requests) == ApprovedFor(gate.log, TargetsOf(requests))
    && TargetsOf(requests) <= gate.targets.Keys
  }

  ghost predicate SystemSound(config: ExecutionConfig, s: System) {
    && IndexesAgree(s.gate.primary, s.gate.targets)
    && Sound(s.world)
    && BackedIssues(s.gate.targets, s.issued)
    && BackedLedger(s.gate.targets, config, s.world.ledger)
    && ApprovedOnce(s.gate.log, s.gate.targets)
    && Match(s.gate, s.world.exec.requests)
  }

  lemma IssueIsBacked(env: Env, gate: GatewayState, call: Call)
    requires IndexesAgree(gate.primary, gate.targets)
    ensures BackedIssue(Evaluate(env, gate, call).0.targets,
                        Issue(call.proposal, call.target, Evaluate(env, gate, call).1))
  {
    hide Evaluate, IdFor;
    if Evaluate(env, gate, call).1.decision == Approved {
      ApprovalsComeFromTheStore(env, gate, call);
    }
  }

  lemma {:induction false} CallKeepsSystem(env: Env, config: ExecutionConfig, s: System, call: Call)
    requires SystemSound(config, s)
    ensures SystemSound(config, StepSystem(env, config, s, AtGateway(EvaluateCall(call))))
  {
    hide Evaluate, IndexesAgree, Sound, BackedIssue, BackedRecord;
    var a := CallApproves(env, s.gate, call);
    var after := Evaluate(env, s.gate, call).0;
    StepKeepsIndexes(env, s.gate, EvaluateCall(call));
    BackingLasts(s.gate.targets, after.targets, config, s.issued, s.world.ledger);
    IssueIsBacked(env, s.gate, call);
    AppendKeepsApprovedOnce(s.gate.log, a, s.gate.targets, after.targets);
    ApprovedForAppend(s.gate.log, a, TargetsOf(s.world.exec.requests));
  }

  lemma SwitchKeepsGate(env: Env, gate: GatewayState, e: Event)
    requires !e.EvaluateCall? && !e.ClearStore?
    ensures Step(env, gate, e) == gate.(kill := Step(env, gate, e).kill)
  {
  }

  // ---------------------------------------------------------------------------
  // Executions
  // ---------------------------------------------------------------------------

  /** Beginning an issued execution either changes nothing or adds one execution of the
      issue's target, action and amount, under the key of that target. */
  lemma {:induction false} BeginAdds(config: ExecutionConfig, s: System, i: nat) returns (r: Record)
    requires SystemSound(config, s) && i < |s.issued|
    ensures var after := AfterBegin(config, s.world, RequestOf(s.issued[i]));
            || (after.ledger == s.world.ledger && after.exec.requests == s.world.exec.requests)
            || (after.ledger == s.world.ledger + [r] && BackedRecord(s.gate.targets, config, r)
                && !StoredUnder(s.world.exec.records, r.key) && r.key !in s.world.exec.inFlight
                && after.exec.requests
                   == s.world.exec.requests + (if r.status == Deferred then [] else [RequestFor(r)]))
  {
    hide DeriveExecutionKey, IdFor, Sound, ApprovedOnce, Match, IndexesAgree, BackedLedger;
    var issue := s.issued[i];
    var req, id := RequestOf(issue), |s.world.ledger|;
    assert BackedIssue(s.gate.targets, issue);
    TakeKeyShape(s.world.exec, req, RequestKey(config, req), id);
    var outcome := Begin(config, s.world.exec, req, id).1;
    r := if outcome.Held? || outcome.Awaiting? then outcome.record
         else NewRecord(req, RequestKey(config, req), id, Deferred);
  }

  /** A dispatched target has an execution, under the key that its approval determines. */
  lemma {:induction false} DispatchedUnder(config: ExecutionConfig, s: System, key: TargetKey) returns (i: nat)
    requires SystemSound(config, s) && key in TargetsOf(s.world.exec.requests)
    ensures key in s.gate.targets && i < |s.world.ledger|
    ensures s.world.ledger[i].key == KeyFor(config, key, s.gate.targets[key].action)
  {
    hide KeyFor, StatusesFit, TrailFits, MoneyBalances, ApprovedOnce, Match, IndexesAgree, BackedIssues;
    var q := TargetDispatched(s.world.exec.requests, key);
    i := RequestFromLedger(s.world.ledger, q);
    assert BackedRecord(s.gate.targets, config, s.world.ledger[i]);
  }

  lemma {:induction false} NewTarget(config: ExecutionConfig, s: System, r: Record)
    requires SystemSound(config, s) && BackedRecord(s.gate.targets, config, r)
    requires !StoredUnder(s.world.exec.records, r.key) && r.key !in s.world.exec.inFlight
    ensures TargetOf(r) !in TargetsOf(s.world.exec.requests)
  {
    FreeKeyIsNew(s.world, r.key);
    hide SystemSound, KeyFor;
    if TargetOf(r) in TargetsOf(s.world.exec.requests) {
      var i := DispatchedUnder(config, s, TargetOf(r));
    }
  }

  lemma {:induction false} DispatchKeepsMatch(config: ExecutionConfig, s: System, r: Record)
    requires SystemSound(config, s) && BackedRecord(s.gate.targets, config, r)
    requires !StoredUnder(s.world.exec.records, r.key) && r.key !in s.world.exec.inFlight
    ensures Match(s.gate, s.world.exec.requests + [RequestFor(r)])
  {
    NewTarget(config, s, r);
    assert ApprovedFor(s.gate.log, {TargetOf(r)}) == StoredApproval(s.gate.targets, TargetOf(r)) by {
      assert ApprovedOnce(s.gate.log, s.gate.targets);
    }
    MatchExtends(s.gate, s.world.exec.requests, r);
  }

  lemma MatchExtends(gate: GatewayState, requests: seq<ProviderRequest>, r: Record)
    requires Match(gate, requests) && TargetOf(r) in gate.targets
    requires TargetOf(r) !in TargetsOf(requests)
    requires ApprovedFor(gate.log, {TargetOf(r)}) == r.amountMinor
    ensures Match(gate, requests + [RequestFor(r)])
  {
    TargetsAppend(requests, RequestFor(r));
    ApprovedForOneMore(gate.log, TargetsOf(requests), TargetOf(r));
  }

  lemma TargetsAppend(requests: seq<ProviderRequest>, q: ProviderRequest)
    ensures TargetsOf(requests + [q]) == TargetsOf(requests) + {TargetOfRequest(q)}
    ensures DispatchedTotal(requests + [q]) == DispatchedTotal(requests) + q.amountMinor
  {
  }

  lemma {:induction false} ExecuteKeepsSystem(env: Env, config: ExecutionConfig, s: System, i: nat)
    requires SystemSound(config, s)
    ensures SystemSound(config, StepSystem(env, config, s, ExecuteIssued(i)))
  {
    hide Sound, AfterBegin, BackedRecord, ApprovedOnce, IndexesAgree, BackedIssues, Match, Applies;
    if i < |s.issued| {
      var c := StepKeepsSound(config, s.world, BeginExecution(RequestOf(s.issued[i])));
      var r := BeginAdds(config, s, i);
      BeginKeepsMatch(config, s, AfterBegin(config, s.world, RequestOf(s.issued[i])), r);
    }
  }

  lemma {:induction false} BeginKeepsMatch(config: ExecutionConfig, s: System, after: World, r: Record)
    requires SystemSound(config, s)
    requires || after.exec.requests == s.world.exec.requests
             || (BackedRecord(s.gate.targets, config, r)
                 && !StoredUnder(s.world.exec.records, r.key) && r.key !in s.world.exec.inFlight
                 && after.exec.requests
                    == s.world.exec.requests + (if r.status == Deferred then [] else [RequestFor(r)]))
    ensures Match(s.gate, after.exec.requests)
  {
    assert Match(s.gate, s.world.exec.requests);
    if after.exec.requests != s.world.exec.requests {
      DispatchKeepsMatch(config, s, r);
    }
  }

  /** The steps after the dispatch add no execution and send nothing. */
  lemma {:induction false} LaterStepsOnlyUpdate(config: ExecutionConfig, w: World, e: ExecEvent)
    requires Sound(w) && !e.BeginExecution?
    ensures var after := StepWorld(config, w, e);
            && after.exec.requests == w.exec.requests && |after.ledger| == |w.ledger|
            && LedgerContinues(w.ledger, after.ledger)
  {
    LaterStepsSendNothing(config, w, e);
    hide StepWorld, Sound, LedgerContinues;
    StepContinues(config, w, e);
  }

  lemma LaterStepsSendNothing(config: ExecutionConfig, w: World, e: ExecEvent)
    requires !e.BeginExecution?
    ensures var after := StepWorld(config, w, e);
            after.exec.requests == w.exec.requests && |after.ledger| == |w.ledger|
  {
  }

  lemma {:induction false} WorldKeepsSystem(config: ExecutionConfig, s: System, e: ExecEvent)
    requires SystemSound(config, s) && !e.BeginExecution?
    ensures SystemSound(config, s.(world := StepWorld(config, s.world, e)))
  {
    hide Applies;
    var after := StepWorld(config, s.world, e);
    var c := StepKeepsSound(config, s.world, e);
    LaterStepsOnlyUpdate(config, s.world, e);
    hide Sound, StepWorld, KeyFor, ApprovedOnce, IndexesAgree, BackedIssues;
    forall i | 0 <= i < |after.ledger| ensures BackedRecord(s.gate.targets, config, after.ledger[i]) {
      assert SameExecution(s.world.ledger[i], after.ledger[i]);
      assert BackedRecord(s.gate.targets, config, s.world.ledger[i]);
    }
  }

  lemma {:induction false} StepKeepsSystem(env: Env, config: ExecutionConfig, s: System, e: SystemEvent)
    requires SystemSound(config, s) && e != AtGateway(ClearStore)
    ensures SystemSound(config, StepSystem(env, config, s, e))
  {
    match e
    case AtGateway(EvaluateCall(call)) => CallKeepsSystem(env, config, s, call);
    case AtGateway(event) =>
      hide Step, IndexesAgree, Sound, BackedIssues, BackedLedger, ApprovedOnce;
      SwitchKeepsGate(env, s.gate, event);
    case ExecuteIssued(i) => ExecuteKeepsSystem(env, config, s, i);
    case AnswerArrives(id, outcome) => WorldKeepsSystem(config, s, ProviderAnswers(id, outcome));
    case TaskAbandoned(id) => WorldKeepsSystem(config, s, TaskDies(id));
    case WebhookArrives(handler, webhook) => WorldKeepsSystem(config, s, DeliverWebhook(handler, webhook));
  }

  lemma {:induction false} SystemSoundAlways(env: Env, config: ExecutionConfig, events: seq<SystemEvent>)
    requires NoStoreClears(events)
    ensures SystemSound(config, RunSystem(env, config, events))
  {
    if events == [] {
      FreshSystem(config);
    } else {
      hide SystemSound, StepSystem;
      SystemSoundAlways(env, config, events[..|events| - 1]);
      StepKeepsSystem(env, config, RunSystem(env, config, events[..|events| - 1]), events[|events| - 1]);
    }
  }

  lemma FreshSystem(config: ExecutionConfig)
    ensures SystemSound(config, System(FRESH, [], EMPTY_WORLD))
  {
  }

  // ---------------------------------------------------------------------------
  // The end-to-end theorems
  // ---------------------------------------------------------------------------

  lemma SameTargetSameKey(targets: map<TargetKey, TargetEntry>, config: ExecutionConfig, a: Record, b: Record)
    requires BackedRecord(targets, config, a) && BackedRecord(targets, config, b)
    requires TargetOf(a) == TargetOf(b)
    ensures a.key == b.key && a.action == b.action && a.amountMinor == b.amountMinor
  {
  }

  /** In any run, each target is dispatched to the provider at most once. */
  lemma {:induction false} AtMostOneDispatchPerTarget(env: Env, config: ExecutionConfig, events: seq<SystemEvent>,
                                                      p: nat, q: nat)
    requires NoStoreClears(events)
    requires p < q < |RunSystem(env, config, events).world.exec.requests|
    ensures var requests := RunSystem(env, config, events).world.exec.requests;
            TargetOfRequest(requests[p]) != TargetOfRequest(requests[q])
  {
    hide RunSystem, BackedRecord, ApprovedOnce, Match, IndexesAgree, StatusesFit, TrailFits, MoneyBalances;
    SystemSoundAlways(env, config, events);
    var s := RunSystem(env, config, events);
    var ledger := s.world.ledger;
    var i := RequestFromLedger(ledger, p);
    var j := RequestFromLedger(ledger, q);
    RequestKeysDiffer(ledger, p, q);
    if TargetOf(ledger[i]) == TargetOf(ledger[j]) {
      SameTargetSameKey(s.gate.targets, config, ledger[i], ledger[j]);
    }
  }

  /** All approvals of a target, fresh or replayed, agree on one action and one amount. */
  lemma {:induction false} OneApprovalPerTarget(env: Env, config: ExecutionConfig, events: seq<SystemEvent>, i: nat,
                                                j: nat)
    requires NoStoreClears(events)
    requires i < |RunSystem(env, config, events).issued| && j < |RunSystem(env, config, events).issued|
    requires var issued := RunSystem(env, config, events).issued;
             && issued[i].result.decision == Approved && issued[j].result.decision == Approved
             && KeyOf(issued[i].target) == KeyOf(issued[j].target)
    ensures var issued := RunSystem(env, config, events).issued;
            && issued[i].proposal.action == issued[j].proposal.action
            && issued[i].proposal.amountMinor == issued[j].proposal.amountMinor
            && issued[i].proposal.proposalId == issued[j].proposal.proposalId
  {
    hide RunSystem, ApprovedOnce, Match, IndexesAgree, Sound, IdFor;
    SystemSoundAlways(env, config, events);
    var s := RunSystem(env, config, events);
    assert BackedIssue(s.gate.targets, s.issued[i]) && BackedIssue(s.gate.targets, s.issued[j]);
  }

  /** What the provider was sent for a target is the action and amount of every approval
      of that target, and the gateway's stored verdict for it is an approval. */
  lemma {:induction false} DispatchedAsApproved(env: Env, config: ExecutionConfig, events: seq<SystemEvent>, q: nat)
    requires NoStoreClears(events)
    requires q < |RunSystem(env, config, events).world.exec.requests|
    ensures var s := RunSystem(env, config, events);
            var request := s.world.exec.requests[q];
            && Backed(s.gate.targets, TargetOfRequest(request), request.action, request.amountMinor)
            && forall i :: 0 <= i < |s.issued| && s.issued[i].result.decision == Approved
                           && KeyOf(s.issued[i].target) == TargetOfRequest(request) ==>
                 && s.issued[i].proposal.action == request.action
                 && s.issued[i].proposal.amountMinor == request.amountMinor
  {
    hide RunSystem, ApprovedOnce, Match, IndexesAgree, KeysHeld, StatusesFit, TrailFits, MoneyBalances, IdFor, KeyFor;
    SystemSoundAlways(env, config, events);
    var s := RunSystem(env, config, events);
    var k := RequestFromLedger(s.world.ledger, q);
    assert BackedRecord(s.gate.targets, config, s.world.ledger[k]);
    forall i | 0 <= i < |s.issued| && s.issued[i].result.decision == Approved
               && KeyOf(s.issued[i].target) == TargetOfRequest(s.world.exec.requests[q])
      ensures s.issued[i].proposal.action == s.world.exec.requests[q].action
           && s.issued[i].proposal.amountMinor == s.world.exec.requests[q].amountMinor
    {
      assert BackedIssue(s.gate.targets, s.issued[i]);
    }
  }

  /** Money across the whole system: what came back is at most what was sent, what was sent
      is exactly what was approved for the targets sent, and that is at most everything the
      audit log shows as freshly approved. */
  lemma {:induction false} RecoveredAtMostApproved(env: Env, config: ExecutionConfig, events: seq<SystemEvent>)
    requires NoStoreClears(events)
    ensures var s := RunSystem(env, config, events);
            && 0 <= Recovered(s.world.replies) <= DispatchedTotal(s.world.exec.requests)
            && DispatchedTotal(s.world.exec.requests) == ApprovedFor(s.gate.log, TargetsOf(s.world.exec.requests))
            && ApprovedFor(s.gate.log, TargetsOf(s.world.exec.requests)) <= ApprovedTotal(s.gate.log)
  {
    hide RunSystem, IndexesAgree, BackedIssues, BackedLedger, KeysHeld, TrailFits;
    SystemSoundAlways(env, config, events);
    var s := RunSystem(env, config, events);
    ReconciledAtMostDispatched(s.world.ledger);
    ApprovedForAtMostTotal(s.gate.log, TargetsOf(s.world.exec.requests));
  }

  lemma {:induction false} KeyForIdentifiesTarget(config: ExecutionConfig, k1: TargetKey, action1: Action,
                                                  k2: TargetKey, action2: Action)
    requires KeyFor(config, k1, action1) == KeyFor(config, k2, action2)
    ensures k1 == k2 && action1 == action2
  {
    hide DeriveExecutionKey, DeriveProposalId, ActionName;
    ExecutionKeyIdentifiesProposal(config.gatewayVersion, config.policyVersion,
                                   IdFor(k1), ActionName(action1), IdFor(k2), ActionName(action2));
    ProposalIdIdentifiesTarget(DECISION_VERSION, POLICY_VERSION, k1.targetType, k1.targetId,
                               k2.targetType, k2.targetId);
    ActionNamesDiffer(action1, action2);
  }

  /** A caller that is answered with a stored record gets the execution of its own target,
      with the action and amount it was approved for: keys never mix up two targets. */
  lemma {:induction false} AnswersAreForTheSameTarget(env: Env, config: ExecutionConfig, events: seq<SystemEvent>,
                                                      i: nat)
    requires NoStoreClears(events)
    requires i < |RunSystem(env, config, events).issued|
    ensures var s := RunSystem(env, config, events);
            var issue := s.issued[i];
            var outcome := Begin(config, s.world.exec, RequestOf(issue), |s.world.ledger|).1;
            outcome.Existing? ==>
              && TargetOf(outcome.record) == KeyOf(issue.target)
              && outcome.record.action == issue.proposal.action
              && outcome.record.amountMinor == issue.proposal.amountMinor
  {
    hide RunSystem, KeyFor, IdFor, DeriveExecutionKey, ApprovedOnce, Match, IndexesAgree, RequestsFit;
    hide TrailFits, MoneyBalances;
    SystemSoundAlways(env, config, events);
    var s := RunSystem(env, config, events);
    ExistingIsOwn(config, s, i);
  }

  lemma {:induction false} ExistingIsOwn(config: ExecutionConfig, s: System, i: nat)
    requires SystemSound(config, s) && i < |s.issued|
    ensures var issue := s.issued[i];
            var outcome := Begin(config, s.world.exec, RequestOf(issue), |s.world.ledger|).1;
            outcome.Existing? ==>
              && TargetOf(outcome.record) == KeyOf(issue.target)
              && outcome.record.action == issue.proposal.action
              && outcome.record.amountMinor == issue.proposal.amountMinor
  {
    hide IdFor, DeriveExecutionKey, ApprovedOnce, Match, IndexesAgree, RequestsFit, TrailFits, MoneyBalances;
    var issue := s.issued[i];
    var req := RequestOf(issue);
    var outcome := Begin(config, s.world.exec, req, |s.world.ledger|).1;
    if outcome.Existing? {
      TakeKeyShape(s.world.exec, req, RequestKey(config, req), |s.world.ledger|);
      var k := Position(s.world.exec.records, RequestKey(config, req));
      StoredIsInLedger(s.world, k);
      assert BackedRecord(s.gate.targets, config, outcome.record);
      assert BackedIssue(s.gate.targets, issue);
      KeyForIdentifiesTarget(config, TargetOf(outcome.record), outcome.record.action, KeyOf(issue.target),
                             issue.proposal.action);
    }
  }

  /** A request that passes the recheck is executed exactly when its target has never been
      executed before; otherwise it is told so, and nothing is sent. */
  lemma {:induction false} ExecutedExactlyWhenFirst(env: Env, config: ExecutionConfig, events: seq<SystemEvent>, i: nat)
    requires NoStoreClears(events)
    requires i < |RunSystem(env, config, events).issued|
    requires var issue := RunSystem(env, config, events).issued[i];
             Revalidate(config, issue.proposal, issue.target, issue.result).None?
    ensures var s := RunSystem(env, config, events);
            var outcome := Begin(config, s.world.exec, RequestOf(s.issued[i]), |s.world.ledger|).1;
            outcome.Held? || outcome.Awaiting?
            <==> forall k :: 0 <= k < |s.world.ledger| ==> TargetOf(s.world.ledger[k]) != KeyOf(s.issued[i].target)
  {
    hide RunSystem, SystemSound, Begin;
    SystemSoundAlways(env, config, events);
    FirstProceeds(config, RunSystem(env, config, events), i);
  }

  lemma {:induction false} FirstProceeds(config: ExecutionConfig, s: System, i: nat)
    requires SystemSound(config, s) && i < |s.issued|
    requires Revalidate(config, s.issued[i].proposal, s.issued[i].target, s.issued[i].result).None?
    ensures var outcome := Begin(config, s.world.exec, RequestOf(s.issued[i]), |s.world.ledger|).1;
            outcome.Held? || outcome.Awaiting?
            <==> forall k :: 0 <= k < |s.world.ledger| ==> TargetOf(s.world.ledger[k]) != KeyOf(s.issued[i].target)
  {
    hide IdFor, DeriveExecutionKey, ApprovedOnce, Match, IndexesAgree, RequestsFit, TrailFits, MoneyBalances;
    hide TakeKey, KeysHeld;
    var issue := s.issued[i];
    var req := RequestOf(issue);
    var key := RequestKey(config, req);
    assert issue.result.decision == Approved && BackedIssue(s.gate.targets, issue);
    assert key == KeyFor(config, KeyOf(issue.target), issue.proposal.action);
    TakenKeyAnswers(s.world, req, key);
    forall k | 0 <= k < |s.world.ledger|
      ensures s.world.ledger[k].key == key <==> TargetOf(s.world.ledger[k]) == KeyOf(issue.target)
    {
      assert BackedRecord(s.gate.targets, config, s.world.ledger[k]);
      if s.world.ledger[k].key == key {
        KeyForIdentifiesTarget(config, TargetOf(s.world.ledger[k]), s.world.ledger[k].action,
                               KeyOf(issue.target), issue.proposal.action);
      }
    }
  }
}
