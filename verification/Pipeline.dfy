/** The whole benchmark, from generating a dataset to executing the approved recoveries. */
module Pipeline {
  import opened Identity
  import opened Domain
  import opened Dataset
  import opened Collections
  import opened Decision
  import opened GatewaySpec
  import opened ExecutionSpec
  import opened Totals
  import opened Validator
  import opened Generator
  import opened Extractors
  import GatewayEvaluation
  import ExecutionAccounting

  /** What the outside contributes: a diagnosis for each case, and for the i-th case the
      time, the audit id, the execution id and the provider's answer. */
  datatype Circumstances = Circumstances(
    diagnosis: Uuid -> Option<Diagnosis>,
    now: nat -> int,
    reference: nat -> Uuid,
    id: nat -> nat,
    outcome: nat -> ProviderOutcome)

  /** The trusted target that is copied from a risk context. */
  function TargetFor(c: RiskContext): Target {
    Target(c.targetType, c.targetId, c.customerId, c.amountAtRiskMinor, c.currency, c.historyCount, c.successRateBps,
           c.attemptCount, c.latestFailureCode)
  }

  function StatusName(status: SubscriptionStatus): string {
    match status
    case Active => "active"
    case PastDue => "past_due"
    case Cancelled => "cancelled"
    case Halted => "halted"
  }

  function ContextFor(c: RiskContext, diagnosis: Option<Diagnosis>): Context {
    Context(TargetFor(c),
            if c.subscriptionStatus.Some? then Some(StatusName(c.subscriptionStatus.value)) else None,
            diagnosis)
  }

  /** The agent sees a subscription as past due exactly when the dataset says so. */
  lemma PastDueReachesAgent(c: RiskContext, diagnosis: Option<Diagnosis>)
    ensures Decision.PastDue(ContextFor(c, diagnosis))
            <==> c.targetType == "subscription" && c.subscriptionStatus == Some(SubscriptionStatus.PastDue)
  {
    if c.subscriptionStatus.Some? {
      var status := c.subscriptionStatus.value;
      assert StatusName(status) == "past_due" <==> status.PastDue?;
    }
  }

  /** With the default limit, the generated payments of high value are those of the
      high-value customers, who are every fifth one, starting with the third. */
  lemma HighValueCustomers(ds: SyntheticDataset, start: int, p: Payment)
    requires Realistic(ds, start) && p in ds.observable.payments
    ensures exists k :: 0 <= k < |ds.observable.customers| && ds.observable.customers[k].id == p.customerId
                        && (p.amountMinor >= DEFAULT_GATEWAY_CONFIG.highValueThresholdMinor <==> k % 5 == 2)
  {
    hide Labelled, DatedFrom, SubscriptionsFit, TriesMade, CasesFit, PastDueHaveCases;
    var customers := ds.observable.customers;
    assert PaymentFits(p, customers);
    var k: nat :| PaymentOfCustomer(customers, k, p);
    assert customers[k].id == p.customerId;
  }

  // ---------------------------------------------------------------------------
  // Distinct targets all the way
  // ---------------------------------------------------------------------------

  predicate AboutContexts(calls: seq<Call>, contexts: seq<RiskContext>) {
    && |calls| == |contexts|
    && forall i :: 0 <= i < |calls| ==>
         && calls[i].target == TargetFor(contexts[i])
         && calls[i].proposal.targetType == contexts[i].targetType
         && calls[i].proposal.targetId == contexts[i].targetId
  }

  function ItemsFor(calls: seq<Call>, results: seq<GatewayResult>, outside: Circumstances)
    : (items: seq<ExecutionAccounting.Item>)
    requires |calls| == |results|
    ensures |items| == |calls|
  {
    seq(|calls|, i requires 0 <= i < |calls| =>
          ExecutionAccounting.Item(calls[i].proposal, calls[i].target, results[i], outside.id(i), outside.outcome(i)))
  }

  /** A dataset with one case for a target gives contexts with distinct targets. */
  lemma {:induction false} ContextsAreDistinct(o: Observable, contexts: seq<RiskContext>)
    requires AllResolve(o) && Targeted(o.cases) == o.cases && Unique(CaseTarget, o.cases)
    requires |contexts| == |o.cases|
    requires forall i :: 0 <= i < |contexts| ==> contexts[i] == RiskOf(o, o.cases[i])
    ensures forall i, j :: 0 <= i < j < |contexts| ==> KeyOf(TargetFor(contexts[i])) != KeyOf(TargetFor(contexts[j]))
  {
    hide Targeted;
    forall i | 0 <= i < |contexts| ensures KeyOf(TargetFor(contexts[i])) == CaseTarget(o.cases[i]) {
      assert o.cases[i] in o.cases;
      ContextTarget(o, o.cases[i]);
    }
    hide RiskOf, CaseTarget, TargetFor;
    forall i, j | 0 <= i < j < |contexts| ensures KeyOf(TargetFor(contexts[i])) != KeyOf(TargetFor(contexts[j])) {
      assert CaseTarget(o.cases[i]) != CaseTarget(o.cases[j]);
    }
  }

  lemma {:induction false} ContextTarget(o: Observable, c: Case)
    requires Resolves(o, c) && HasTarget(c)
    ensures KeyOf(TargetFor(RiskOf(o, c))) == CaseTarget(c)
  {
    hide History, Successes, Having;
  }

  lemma {:induction false} DistinctDownstream(calls: seq<Call>, contexts: seq<RiskContext>, results: seq<GatewayResult>,
                                              outside: Circumstances)
    requires AboutContexts(calls, contexts) && |results| == |calls|
    requires forall i, j :: 0 <= i < j < |contexts| ==>
               KeyOf(TargetFor(contexts[i])) != KeyOf(TargetFor(contexts[j]))
    ensures GatewayEvaluation.DistinctTargets(calls)
    ensures ExecutionAccounting.DistinctTargets(ItemsFor(calls, results, outside))
  {
    var items := ItemsFor(calls, results, outside);
    forall i | 0 <= i < |items| ensures ExecutionAccounting.ProposalTarget(items[i]) == KeyOf(TargetFor(contexts[i])) {
    }
  }

  // ---------------------------------------------------------------------------
  // The two reports
  // ---------------------------------------------------------------------------

  /** The execution's books start from what the gateway's report ends with. */
  lemma {:induction false} BooksContinueReport(config: ExecutionConfig, st: ExecState, calls: seq<Call>,
                                               results: seq<GatewayResult>, outside: Circumstances)
    requires |calls| == |results|
    ensures var graded := GatewayEvaluation.Pair(calls, results);
            var lines := ExecutionAccounting.ProcessAll(config, st, ItemsFor(calls, results, outside)).1;
            && GatewayEvaluation.CountDecision(graded, Approved) == Total(lines, ExecutionAccounting.AUTHORIZED)
            && GatewayEvaluation.AmountOf(graded, Approved) == Total(lines, ExecutionAccounting.AUTHORIZED_AMOUNT)
            && GatewayEvaluation.TotalAmount(graded) == Total(lines, ExecutionAccounting.AT_RISK)
  {
    if calls != [] {
      var n := |calls| - 1;
      var items := ItemsFor(calls, results, outside);
      var graded := GatewayEvaluation.Pair(calls, results);
      BooksContinueReport(config, st, calls[..n], results[..n], outside);
      assert items == ItemsFor(calls[..n], results[..n], outside) + [items[n]];
      assert graded == GatewayEvaluation.Pair(calls[..n], results[..n]) + [graded[n]];
      assert graded[..n] == GatewayEvaluation.Pair(calls[..n], results[..n]);
      hide ItemsFor;
      var front := items[..n];
      assert front == ItemsFor(calls[..n], results[..n], outside);
      OneMoreLine(config, st, front, items[n]);
    }
  }

  lemma {:induction false} OneMoreLine(config: ExecutionConfig, st: ExecState, items: seq<ExecutionAccounting.Item>,
                                       item: ExecutionAccounting.Item)
    ensures var lines := ExecutionAccounting.ProcessAll(config, st, items).1;
            var more := ExecutionAccounting.ProcessAll(config, st, items + [item]).1;
            var approved, amount := item.result.decision == Approved, item.target.amountMinor;
            && Total(more, ExecutionAccounting.AUTHORIZED)
               == Total(lines, ExecutionAccounting.AUTHORIZED) + (if approved then 1 else 0)
            && Total(more, ExecutionAccounting.AUTHORIZED_AMOUNT)
               == Total(lines, ExecutionAccounting.AUTHORIZED_AMOUNT) + (if approved then amount else 0)
            && Total(more, ExecutionAccounting.AT_RISK) == Total(lines, ExecutionAccounting.AT_RISK) + amount
  {
    hide ExecutionAccounting.Process, ExecutionAccounting.ProcessAll, Total;
    var (before, lines) := ExecutionAccounting.ProcessAll(config, st, items);
    var line := ExecutionAccounting.Process(config, before, item).1;
    ExecutionAccounting.ProcessAppend(config, st, items, item);
    LineOf(config, before, item);
    TotalAppend(lines, line, ExecutionAccounting.AUTHORIZED);
    TotalAppend(lines, line, ExecutionAccounting.AUTHORIZED_AMOUNT);
    TotalAppend(lines, line, ExecutionAccounting.AT_RISK);
  }

  lemma {:induction false} LineOf(config: ExecutionConfig, st: ExecState, item: ExecutionAccounting.Item)
    ensures var line := ExecutionAccounting.Process(config, st, item).1;
            line.target == item.target && (line.reply.NotAsked? <==> item.result.decision != Approved)
  {
    hide Begin, Finish;
  }

  const AT_RISK_OF: Case -> int := (c: Case) => c.amountAtRiskMinor

  /** The money judged by the gateway is the money at risk in the cases. */
  lemma {:induction false} MoneyFromCases(calls: seq<Call>, results: seq<GatewayResult>, cases: seq<Case>)
    requires |calls| == |results| == |cases|
    requires forall i :: 0 <= i < |calls| ==> calls[i].target.amountMinor == cases[i].amountAtRiskMinor
    ensures GatewayEvaluation.TotalAmount(GatewayEvaluation.Pair(calls, results)) == Total(cases, AT_RISK_OF)
  {
    if calls != [] {
      var n := |calls| - 1;
      MoneyFromCases(calls[..n], results[..n], cases[..n]);
      assert GatewayEvaluation.Pair(calls, results)[..n] == GatewayEvaluation.Pair(calls[..n], results[..n]);
    }
  }

  lemma {:induction false} TargetsCopyCases(calls: seq<Call>, contexts: seq<RiskContext>, o: Observable)
    requires AllResolve(o) && Targeted(o.cases) == o.cases && AboutContexts(calls, contexts)
    requires |contexts| == |o.cases|
    requires forall i :: 0 <= i < |contexts| ==> contexts[i] == RiskOf(o, o.cases[i])
    ensures |calls| == |o.cases|
    ensures forall i :: 0 <= i < |calls| ==> calls[i].target.amountMinor == o.cases[i].amountAtRiskMinor
  {
    hide Targeted, History, Successes, Having;
    forall i | 0 <= i < |calls| ensures calls[i].target.amountMinor == o.cases[i].amountAtRiskMinor {
      assert contexts[i] == RiskOf(o, o.cases[i]);
    }
  }

  // ---------------------------------------------------------------------------
  // The benchmark
  // ---------------------------------------------------------------------------

  class Benchmark {
    const generator: SyntheticDataGenerator
    const agent: RecoveryDecisionAgent
    const gatewayEvaluator: GatewayEvaluation.GatewayEvaluator
    const executionEvaluator: ExecutionAccounting.ExecutionEvaluator

    constructor (generator: SyntheticDataGenerator, agent: RecoveryDecisionAgent,
                 gatewayEvaluator: GatewayEvaluation.GatewayEvaluator,
                 executionEvaluator: ExecutionAccounting.ExecutionEvaluator)
      ensures this.generator == generator && this.agent == agent
      ensures this.gatewayEvaluator == gatewayEvaluator && this.executionEvaluator == executionEvaluator
    {
      this.generator, this.agent := generator, agent;
      this.gatewayEvaluator, this.executionEvaluator := gatewayEvaluator, executionEvaluator;
    }

    /** The agent's own proposal for a context and its diagnosis, at its time, without an
        approval record. */
    ghost predicate Proposes(c: RiskContext, outside: Circumstances, i: nat, call: Call) {
      var ctx, p := ContextFor(c, outside.diagnosis(c.caseId)), call.proposal;
      && (exists cooldown ::
            var r := Routing(p.action, p.status, cooldown, p.requiresHumanApproval);
            Routes(agent.policy, ctx, r) && p == ProposalFor(agent.policy, agent.decisionVersion, ctx, r))
      && call.target == TargetFor(c) && call.approval == None && call.now == outside.now(i)
      && call.reference == outside.reference(i)
    }

    /** One proposal for each context. */
    method Propose(contexts: seq<RiskContext>, outside: Circumstances) returns (calls: seq<Call>)
      ensures AboutContexts(calls, contexts)
      ensures forall i :: 0 <= i < |calls| ==> Proposes(contexts[i], outside, i, calls[i])
    {
      hide Routes, DeriveProposalId;
      calls := [];
      for i := 0 to |contexts|
        invariant AboutContexts(calls, contexts[..i])
        invariant forall j :: 0 <= j < i ==> Proposes(contexts[j], outside, j, calls[j])
      {
        var context := contexts[i];
        var proposal, cooldown := agent.EvaluateProposal(ContextFor(context, outside.diagnosis(context.caseId)));
        assert Routes(agent.policy, ContextFor(context, outside.diagnosis(context.caseId)),
                      Routing(proposal.action, proposal.status, cooldown, proposal.requiresHumanApproval));
        calls := calls + [Call(proposal, TargetFor(context), None, outside.now(i), outside.reference(i), 0)];
      }
      assert contexts[..|contexts|] == contexts;
    }

    /** With a fresh gateway and a fresh service, whatever the random stream, the diagnoses
        and the provider's answers: the gateway's audit finds nothing unsafe and no replay,
        the execution starts from exactly the money the gateway approved, and what it
        reports as recovered is the money of the registry's succeeded records. */
    method Run(outside: Circumstances)
      returns (dataset: SyntheticDataset, gatewayReport: GatewayEvaluation.Report,
               executionReport: ExecutionAccounting.Report)
      requires Sampling.Sum(generator.config.weights) > 0
      requires generator.config.numCustomers > 0 || generator.config.numPayments <= 0
      requires gatewayEvaluator.gateway.State() == FRESH
      requires gatewayEvaluator.policy == gatewayEvaluator.gateway.policy
      requires executionEvaluator.service.manager.Valid()
      requires executionEvaluator.service.State() == NO_EXECUTIONS
      modifies generator.rng
      modifies gatewayEvaluator.gateway.auditLogger, gatewayEvaluator.gateway.store, gatewayEvaluator.gateway.limiter
      modifies executionEvaluator.service.manager, executionEvaluator.service.provider
      modifies executionEvaluator.service.auditLogger
      ensures gatewayReport.replays == 0 && gatewayReport.unsafe == 0
      ensures WellFormed(dataset) && Realistic(dataset, generator.config.startDate)
      ensures gatewayReport.total == executionReport.total == |dataset.observable.cases|
      ensures gatewayReport.totalAmount == Total(dataset.observable.cases, AT_RISK_OF)
      ensures gatewayReport.approved == executionReport.books.authorized
      ensures gatewayReport.approvedAmount == executionReport.books.authorizedAmount
      ensures gatewayReport.totalAmount == executionReport.books.atRiskAmount
      ensures executionEvaluator.service.manager.Valid()
      ensures executionReport.books.recoveredAmount
           == ExecutionAccounting.SucceededTotal(executionEvaluator.service.State().records)
      ensures executionReport.books.violations == 0
    {
      hide WellFormed, Unique, CaseTarget, EvenlyDealt, InOrder, Describes, Sampling.Sum, AllResolve, Resolves, RiskOf;
      hide Targeted, AboutContexts, ItemsFor, Batch, ExecutionAccounting.ProcessAll;
      hide GatewayEvaluation.DistinctTargets, ExecutionAccounting.DistinctTargets, TargetFor;
      hide Realistic, Total, Proposes, Routes;
      dataset := generator.Generate();
      WellFormedResolves(dataset);
      var contexts := ExtractFromDataset(dataset.observable);
      ContextsAreDistinct(dataset.observable, contexts);
      var calls := Propose(contexts, outside);
      var results;
      results, gatewayReport := gatewayEvaluator.Evaluate(calls);
      var items := ItemsFor(calls, results, outside);
      DistinctDownstream(calls, contexts, results, outside);
      TargetsCopyCases(calls, contexts, dataset.observable);
      MoneyFromCases(calls, results, dataset.observable.cases);
      GatewayEvaluation.NothingUnsafeOnDistinctTargets(gatewayEvaluator.gateway.Environment(), calls, gatewayReport);
      var service := executionEvaluator.service;
      assert service.State() == NO_EXECUTIONS;
      var records;
      ghost var lines;
      records, executionReport, lines := executionEvaluator.EvaluateProposals(items);
      ExecutionAccounting.RecoveredOnDistinctTargets(service.config, items, executionReport);
      BooksContinueReport(service.config, NO_EXECUTIONS, calls, results, outside);
    }
  }
}
