/** The two feature extractors: the risk engine's, with rates in basis points, and the
    diagnosis context builder's, with rates in percent. Each builds its own indexes. */
module Extractors {
  import opened Identity
  import opened Domain
  import opened Dataset
  import opened Collections
  import opened Sorting
  import opened Totals
  import opened Rates
  import opened Validator
  import opened Generator
  import opened Sequences

  datatype RiskContext = RiskContext(
    caseId: Uuid,
    targetType: string,
    targetId: Uuid,
    customerId: Uuid,
    amountAtRiskMinor: int,
    currency: string,
    historyCount: int,
    successCount: int,
    successRateBps: int,
    attemptCount: int,
    latestFailureCode: Option<string>,
    subscriptionStatus: Option<SubscriptionStatus>)

  datatype AttemptSummary = AttemptSummary(number: int, failureCode: Option<string>, offsetSeconds: int)

  datatype DiagnosisContext = DiagnosisContext(
    caseId: Uuid,
    targetType: string,
    targetId: Uuid,
    amountMinor: int,
    currency: string,
    tenureDays: int,
    historyCount: int,
    successCount: int,
    successRatePct: int,
    attempts: seq<AttemptSummary>,
    subscriptionStatus: Option<SubscriptionStatus>)

  // ---------------------------------------------------------------------------
  // The history of a customer
  // ---------------------------------------------------------------------------

  /** All payments of a customer made before a time, straight from the whole list. */
  function History(payments: seq<Payment>, customer: Uuid, time: int): seq<Payment> {
    if payments == [] then []
    else
      var p := payments[|payments| - 1];
      History(payments[..|payments| - 1], customer, time)
      + (if p.customerId == customer && p.createdAt < time then [p] else [])
  }

  function Before(payments: seq<Payment>, time: int): seq<Payment> {
    if payments == [] then []
    else
      var p := payments[|payments| - 1];
      Before(payments[..|payments| - 1], time) + (if p.createdAt < time then [p] else [])
  }

  /** Filtering a customer's group by time is filtering the whole list directly. */
  lemma {:induction false} GroupedHistory(payments: seq<Payment>, customer: Uuid, time: int)
    ensures Before(Having(PaymentCustomer, payments, customer), time) == History(payments, customer, time)
  {
    if payments != [] {
      var n := |payments| - 1;
      var front := Having(PaymentCustomer, payments[..n], customer);
      GroupedHistory(payments[..n], customer, time);
      BeforeAppend(front, payments[n], time);
      hide Before;
    }
  }

  lemma BeforeAppend(payments: seq<Payment>, p: Payment, time: int)
    ensures Before(payments + [p], time) == Before(payments, time) + (if p.createdAt < time then [p] else [])
    ensures Before(payments + [], time) == Before(payments, time)
  {
    AppendParts(payments, p);
    assert payments + [] == payments;
  }

  const CAPTURED: Payment -> int := (p: Payment) => if p.status == PaymentCaptured then 1 else 0

  function Successes(payments: seq<Payment>): int {
    Total(payments, CAPTURED)
  }

  lemma {:induction false} SuccessesInRange(payments: seq<Payment>)
    ensures 0 <= Successes(payments) <= |payments|
  {
    if payments != [] {
      SuccessesInRange(payments[..|payments| - 1]);
    }
  }

  function Percent(part: int, whole: int): int {
    if whole > 0 then part * 100 / whole else 0
  }

  // ---------------------------------------------------------------------------
  // What each extractor has to produce
  // ---------------------------------------------------------------------------

  function CustomerOf(o: Observable, id: Uuid): Customer
    requires id in Image(CustomerId, o.customers)
  {
    IndexBy(CustomerId, o.customers)[id]
  }

  function PaymentOf(o: Observable, id: Uuid): Payment
    requires id in Image(PaymentId, o.payments)
  {
    IndexBy(PaymentId, o.payments)[id]
  }

  function SubscriptionOf(o: Observable, id: Uuid): Subscription
    requires id in Image(SubscriptionId, o.subscriptions)
  {
    IndexBy(SubscriptionId, o.subscriptions)[id]
  }

  /** The lookups that the extractors make for a case succeed. */
  predicate Resolves(o: Observable, c: Case) {
    && (c.paymentId.Some? ==>
          c.paymentId.value in Image(PaymentId, o.payments)
          && PaymentOf(o, c.paymentId.value).customerId in Image(CustomerId, o.customers))
    && (c.paymentId.None? && c.subscriptionId.Some? ==>
          c.subscriptionId.value in Image(SubscriptionId, o.subscriptions)
          && SubscriptionOf(o, c.subscriptionId.value).customerId in Image(CustomerId, o.customers))
  }

  /** A case without payment and without subscription is skipped. */
  predicate HasTarget(c: Case) {
    c.paymentId.Some? || c.subscriptionId.Some?
  }

  function RiskOf(o: Observable, c: Case): RiskContext
    requires Resolves(o, c) && HasTarget(c)
  {
    if c.paymentId.Some? then
      var p := PaymentOf(o, c.paymentId.value);
      var prior := History(o.payments, p.customerId, p.createdAt);
      var own := Having(AttemptPayment, o.attempts, p.id);
      RiskContext(c.id, "payment", p.id, p.customerId, c.amountAtRiskMinor, c.currency,
                  |prior|, Successes(prior), Bps(Successes(prior), |prior|),
                  |own|, if own == [] then None else own[|own| - 1].failureCode, None)
    else
      var s := SubscriptionOf(o, c.subscriptionId.value);
      var prior := History(o.payments, s.customerId, s.createdAt);
      RiskContext(c.id, "subscription", s.id, s.customerId, c.amountAtRiskMinor, c.currency,
                  |prior|, Successes(prior), Bps(Successes(prior), |prior|), 0, None, Some(s.status))
  }

  const DAY := 86400

  function Tenure(c: Customer, time: int): int {
    if (time - c.createdAt) / DAY > 0 then (time - c.createdAt) / DAY else 0
  }

  function Summaries(attempts: seq<Attempt>, made: int): seq<AttemptSummary> {
    Map((a: Attempt) => AttemptSummary(a.number, a.failureCode, a.attemptedAt - made), attempts)
  }

  function DiagnosisOf(o: Observable, c: Case): DiagnosisContext
    requires Resolves(o, c) && HasTarget(c)
  {
    if c.paymentId.Some? then
      var p := PaymentOf(o, c.paymentId.value);
      var prior := SortedBy(PaymentMade, History(o.payments, p.customerId, p.createdAt));
      DiagnosisContext(c.id, "payment", p.id, p.amountMinor, p.currency,
                       Tenure(CustomerOf(o, p.customerId), p.createdAt),
                       |prior|, Successes(prior), Percent(Successes(prior), |prior|),
                       Summaries(SortedBy(AttemptNumber, Having(AttemptPayment, o.attempts, p.id)), p.createdAt), None)
    else
      var s := SubscriptionOf(o, c.subscriptionId.value);
      var prior := SortedBy(PaymentMade, History(o.payments, s.customerId, s.createdAt));
      DiagnosisContext(c.id, "subscription", s.id, s.amountMinor, s.currency,
                       Tenure(CustomerOf(o, s.customerId), s.createdAt),
                       |prior|, Successes(prior), Percent(Successes(prior), |prior|), [], Some(s.status))
  }

  function Targeted(cases: seq<Case>): (r: seq<Case>)
    ensures forall i :: 0 <= i < |r| ==> r[i] in cases && HasTarget(r[i])
  {
    if cases == [] then []
    else
      var c := cases[|cases| - 1];
      Targeted(cases[..|cases| - 1]) + (if HasTarget(c) then [c] else [])
  }

  lemma NothingTargeted()
    ensures Targeted([]) == []
  {
  }

  ghost predicate AllResolve(o: Observable) {
    forall c :: c in o.cases ==> Resolves(o, c)
  }

  // ---------------------------------------------------------------------------
  // The two extractors
  // ---------------------------------------------------------------------------

  function GroupOf<T>(groups: map<Uuid, seq<T>>, id: Uuid): seq<T> {
    if id in groups then groups[id] else []
  }

  lemma GroupIsHaving<T>(key: T -> Uuid, groups: map<Uuid, seq<T>>, xs: seq<T>, id: Uuid)
    requires GroupsBy(key, groups, xs)
    ensures GroupOf(groups, id) == Having(key, xs, id)
  {
    HavingNone(key, xs, id);
  }

  /** What the loops look up for a customer. */
  lemma PriorIsHistory(groups: map<Uuid, seq<Payment>>, payments: seq<Payment>, customer: Uuid, time: int)
    requires GroupsBy(PaymentCustomer, groups, payments)
    ensures Before(GroupOf(groups, customer), time) == History(payments, customer, time)
  {
    GroupIsHaving(PaymentCustomer, groups, payments, customer);
    GroupedHistory(payments, customer, time);
  }

  lemma TargetedAppend(cases: seq<Case>, i: nat)
    requires i < |cases|
    ensures Targeted(cases[..i + 1])
         == if HasTarget(cases[i]) then Targeted(cases[..i]) + [cases[i]] else Targeted(cases[..i])
  {
    assert cases[..i + 1][..i] == cases[..i];
  }

  /** The dictionaries that both extractors build first. */
  datatype Tables = Tables(
    customers: map<Uuid, Customer>,
    payments: map<Uuid, Payment>,
    subscriptions: map<Uuid, Subscription>,
    customerPayments: map<Uuid, seq<Payment>>,
    paymentAttempts: map<Uuid, seq<Attempt>>)

  ghost predicate TablesOf(t: Tables, o: Observable) {
    && t.customers == IndexBy(CustomerId, o.customers)
    && t.payments == IndexBy(PaymentId, o.payments)
    && t.subscriptions == IndexBy(SubscriptionId, o.subscriptions)
    && GroupsBy(PaymentCustomer, t.customerPayments, o.payments)
    && GroupsBy(AttemptPayment, t.paymentAttempts, o.attempts)
  }

  method BuildTables(o: Observable) returns (t: Tables)
    ensures TablesOf(t, o)
  {
    hide GroupsBy, IndexBy;
    var customerPayments, _ := Group(PaymentCustomer, o.payments);
    var paymentAttempts, _ := Group(AttemptPayment, o.attempts);
    t := Tables(IndexBy(CustomerId, o.customers), IndexBy(PaymentId, o.payments),
                IndexBy(SubscriptionId, o.subscriptions), customerPayments, paymentAttempts);
  }

  method RiskContextFor(o: Observable, t: Tables, c: Case) returns (context: RiskContext)
    requires TablesOf(t, o) && Resolves(o, c) && HasTarget(c)
    ensures context == RiskOf(o, c)
  {
    hide History, Successes, Bps, Having, Before, GroupsBy, GroupOf;
    if c.paymentId.Some? {
      var payment := t.payments[c.paymentId.value];
      var customer := t.customers[payment.customerId];
      var prior := Before(GroupOf(t.customerPayments, customer.id), payment.createdAt);
      PriorIsHistory(t.customerPayments, o.payments, customer.id, payment.createdAt);
      var attempts := GroupOf(t.paymentAttempts, payment.id);
      GroupIsHaving(AttemptPayment, t.paymentAttempts, o.attempts, payment.id);
      return RiskContext(c.id, "payment", payment.id, customer.id, c.amountAtRiskMinor, c.currency,
                         |prior|, Successes(prior), Bps(Successes(prior), |prior|),
                         |attempts|, if attempts == [] then None else attempts[|attempts| - 1].failureCode, None);
    }
    var subscription := t.subscriptions[c.subscriptionId.value];
    var customer := t.customers[subscription.customerId];
    var prior := Before(GroupOf(t.customerPayments, customer.id), subscription.createdAt);
    PriorIsHistory(t.customerPayments, o.payments, customer.id, subscription.createdAt);
    return RiskContext(c.id, "subscription", subscription.id, customer.id, c.amountAtRiskMinor, c.currency,
                       |prior|, Successes(prior), Bps(Successes(prior), |prior|), 0, None, Some(subscription.status));
  }

  method DiagnosisContextFor(o: Observable, t: Tables, c: Case) returns (context: DiagnosisContext)
    requires TablesOf(t, o) && Resolves(o, c) && HasTarget(c)
    ensures context == DiagnosisOf(o, c)
  {
    hide History, Successes, Percent, Having, Before, GroupsBy, GroupOf, SortedBy, Tenure, Summaries;
    if c.paymentId.Some? {
      var payment := t.payments[c.paymentId.value];
      var customer := t.customers[payment.customerId];
      var prior := SortedBy(PaymentMade, Before(GroupOf(t.customerPayments, customer.id), payment.createdAt));
      PriorIsHistory(t.customerPayments, o.payments, customer.id, payment.createdAt);
      var attempts := SortedBy(AttemptNumber, GroupOf(t.paymentAttempts, payment.id));
      GroupIsHaving(AttemptPayment, t.paymentAttempts, o.attempts, payment.id);
      return DiagnosisContext(c.id, "payment", payment.id, payment.amountMinor, payment.currency,
                              Tenure(customer, payment.createdAt), |prior|, Successes(prior),
                              Percent(Successes(prior), |prior|), Summaries(attempts, payment.createdAt), None);
    }
    var subscription := t.subscriptions[c.subscriptionId.value];
    var customer := t.customers[subscription.customerId];
    var prior := SortedBy(PaymentMade, Before(GroupOf(t.customerPayments, customer.id), subscription.createdAt));
    PriorIsHistory(t.customerPayments, o.payments, customer.id, subscription.createdAt);
    return DiagnosisContext(c.id, "subscription", subscription.id, subscription.amountMinor, subscription.currency,
                            Tenure(customer, subscription.createdAt), |prior|, Successes(prior),
                            Percent(Successes(prior), |prior|), [], Some(subscription.status));
  }

  method ExtractFromDataset(o: Observable) returns (contexts: seq<RiskContext>)
    requires AllResolve(o)
    ensures var cases := Targeted(o.cases);
            |contexts| == |cases| && forall i :: 0 <= i < |cases| ==> contexts[i] == RiskOf(o, cases[i])
  {
    hide Resolves, RiskOf, Targeted, TablesOf;
    NothingTargeted();
    var tables := BuildTables(o);
    contexts := [];
    for i := 0 to |o.cases|
      invariant |contexts| == |Targeted(o.cases[..i])|
      invariant forall k :: 0 <= k < |contexts| ==>
        Targeted(o.cases[..i])[k] in o.cases && contexts[k] == RiskOf(o, Targeted(o.cases[..i])[k])
    {
      TargetedAppend(o.cases, i);
      if HasTarget(o.cases[i]) {
        var context := RiskContextFor(o, tables, o.cases[i]);
        contexts := contexts + [context];
      }
    }
    assert o.cases[..|o.cases|] == o.cases;
  }

  method BuildFromDataset(o: Observable) returns (contexts: seq<DiagnosisContext>)
    requires AllResolve(o)
    ensures var cases := Targeted(o.cases);
            |contexts| == |cases| && forall i :: 0 <= i < |cases| ==> contexts[i] == DiagnosisOf(o, cases[i])
  {
    hide Resolves, DiagnosisOf, Targeted, TablesOf;
    NothingTargeted();
    var tables := BuildTables(o);
    contexts := [];
    for i := 0 to |o.cases|
      invariant |contexts| == |Targeted(o.cases[..i])|
      invariant forall k :: 0 <= k < |contexts| ==>
        Targeted(o.cases[..i])[k] in o.cases && contexts[k] == DiagnosisOf(o, Targeted(o.cases[..i])[k])
    {
      TargetedAppend(o.cases, i);
      if HasTarget(o.cases[i]) {
        var context := DiagnosisContextFor(o, tables, o.cases[i]);
        contexts := contexts + [context];
      }
    }
    assert o.cases[..|o.cases|] == o.cases;
  }

  // ---------------------------------------------------------------------------
  // They agree
  // ---------------------------------------------------------------------------

  /** Flooring to basis points and then to percent loses nothing against flooring at once. */
  lemma {:induction false} PercentOfBps(part: nat, whole: nat)
    ensures Percent(part, whole) == Bps(part, whole) / 100
  {
    if whole > 0 {
      var bps, pct := Bps(part, whole), Bps(part, whole) / 100;
      DivisionFloors(part * 10000, whole);
      DivisionFloors(bps, 100);
      ProductsOrdered(pct * 100, bps, whole);
      ProductsOrdered(bps + 1, (pct + 1) * 100, whole);
      Scaled(pct, whole);
      Scaled(pct + 1, whole);
      DivisionFloors(part * 100, whole);
      FloorAtLeast(part * 100 / whole, part * 100, whole, pct);
      BelowNext(part * 100, whole, pct);
    }
  }

  lemma Scaled(k: int, whole: int)
    ensures k * 100 * whole == 100 * (k * whole)
  {
  }

  lemma {:induction false} BelowNext(n: int, d: int, q: int)
    requires d > 0 && n < (q + 1) * d
    ensures n / d <= q
  {
    DivisionFloors(n, d);
    if q + 1 <= n / d {
      ProductsOrdered(q + 1, n / d, d);
    }
  }

  /** The two contexts tell the same history: the same counts, of which the successes are a
      part, and the percent rate is the basis-point rate cut to percent. */
  predicate Tells(risk: RiskContext, diagnosis: DiagnosisContext) {
    && risk.caseId == diagnosis.caseId && risk.targetType == diagnosis.targetType && risk.targetId == diagnosis.targetId
    && risk.subscriptionStatus == diagnosis.subscriptionStatus
    && risk.historyCount == diagnosis.historyCount && risk.successCount == diagnosis.successCount
    && 0 <= risk.successCount <= risk.historyCount && 0 <= risk.successRateBps <= 10000
    && diagnosis.successRatePct == risk.successRateBps / 100
    && risk.attemptCount == |diagnosis.attempts|
  }

  lemma SameHistory(o: Observable, c: Case)
    requires Resolves(o, c) && HasTarget(c)
    ensures Tells(RiskOf(o, c), DiagnosisOf(o, c))
  {
    hide History, Successes, Bps, Percent;
    var customer, time :=
      if c.paymentId.Some? then PaymentOf(o, c.paymentId.value).customerId
      else SubscriptionOf(o, c.subscriptionId.value).customerId,
      if c.paymentId.Some? then PaymentOf(o, c.paymentId.value).createdAt
      else SubscriptionOf(o, c.subscriptionId.value).createdAt;
    var prior := History(o.payments, customer, time);
    SuccessesOfSorted(prior);
    SuccessesInRange(prior);
    BpsInRange(Successes(prior), |prior|);
    PercentOfBps(Successes(prior), |prior|);
  }

  lemma {:induction false} SuccessesOfSorted(payments: seq<Payment>)
    ensures Successes(SortedBy(PaymentMade, payments)) == Successes(payments)
  {
    TotalOfPermutation(SortedBy(PaymentMade, payments), payments, CAPTURED);
  }

  /** The risk engine's latest failure is the last of the attempts in list order, the
      diagnosis context's the one with the highest number. They coincide when the attempts
      of the payment are listed by number. */
  lemma {:induction false} SameLatestFailure(o: Observable, c: Case)
    requires Resolves(o, c) && c.paymentId.Some?
    requires Ascending(AttemptNumber, Having(AttemptPayment, o.attempts, PaymentOf(o, c.paymentId.value).id))
    ensures var risk, diagnosis := RiskOf(o, c), DiagnosisOf(o, c);
            risk.latestFailureCode
            == if diagnosis.attempts == [] then None else diagnosis.attempts[|diagnosis.attempts| - 1].failureCode
  {
    hide History, Successes, Bps, Percent;
    SortedAlready(AttemptNumber, Having(AttemptPayment, o.attempts, PaymentOf(o, c.paymentId.value).id));
  }

  /** The generator lists them so. */
  lemma GeneratedAttemptsAscend(attempts: seq<Attempt>, payment: Uuid)
    requires InOrder(attempts)
    ensures Ascending(AttemptNumber, Having(AttemptPayment, attempts, payment))
  {
    var own, numbers := Having(AttemptPayment, attempts, payment), Numbers(attempts, payment);
    assert numbers == OneTo(|numbers|);
    forall i | 0 <= i < |own| ensures AttemptNumber(own[i]) == i + 1 {
      assert numbers[i] == own[i].number;
    }
  }

  /** The two lists of contexts are about the same cases in the same order. */
  lemma {:induction false} ExtractorsAgree(o: Observable, risks: seq<RiskContext>, diagnoses: seq<DiagnosisContext>)
    requires AllResolve(o)
    requires var cases := Targeted(o.cases);
             && |risks| == |cases| && (forall i :: 0 <= i < |cases| ==> risks[i] == RiskOf(o, cases[i]))
             && |diagnoses| == |cases| && (forall i :: 0 <= i < |cases| ==> diagnoses[i] == DiagnosisOf(o, cases[i]))
    ensures |risks| == |diagnoses|
    ensures forall i :: 0 <= i < |risks| ==> Tells(risks[i], diagnoses[i])
  {
    hide RiskOf, DiagnosisOf, Tells, Resolves, Targeted;
    forall i | 0 <= i < |risks| ensures Tells(risks[i], diagnoses[i]) {
      SameHistory(o, Targeted(o.cases)[i]);
    }
  }

  /** Every dataset that passes the validator can be extracted: no lookup fails, no case is
      skipped, and each lookup finds the one entity with that id. */
  lemma WellFormedResolves(ds: SyntheticDataset)
    requires WellFormed(ds)
    ensures AllResolve(ds.observable) && Targeted(ds.observable.cases) == ds.observable.cases
  {
    var o := ds.observable;
    forall c | c in o.cases ensures Resolves(o, c) && HasTarget(c) {
      var i :| 0 <= i < |o.cases| && o.cases[i] == c;
      assert CaseFine(o.cases[i], o.payments, o.subscriptions);
      if c.paymentId.Some? {
        var p := PaymentOf(o, c.paymentId.value);
        var k :| 0 <= k < |o.payments| && o.payments[k] == p;
        assert BelongsTo(o.customers, o.payments[k].customerId, o.payments[k].createdAt);
      } else {
        var s := SubscriptionOf(o, c.subscriptionId.value);
        var k :| 0 <= k < |o.subscriptions| && o.subscriptions[k] == s;
        assert BelongsTo(o.customers, o.subscriptions[k].customerId, o.subscriptions[k].createdAt);
      }
    }
    AllTargeted(o.cases);
  }

  lemma {:induction false} AllTargeted(cases: seq<Case>)
    requires forall c :: c in cases ==> HasTarget(c)
    ensures Targeted(cases) == cases
  {
    if cases != [] {
      var front, c := cases[..|cases| - 1], cases[|cases| - 1];
      assert cases == front + [c];
      assert Targeted(cases) == Targeted(front) + [c];
      hide Targeted, HasTarget;
      AllTargeted(front);
    }
  }

  /** On generated data the two also agree on the money: the risk context takes it from the
      case, the diagnosis context from the payment or subscription. */
  lemma SameMoney(ds: SyntheticDataset, start: int, c: Case)
    requires WellFormed(ds) && Realistic(ds, start) && c in ds.observable.cases
    ensures Resolves(ds.observable, c) && HasTarget(c)
    ensures var risk, diagnosis := RiskOf(ds.observable, c), DiagnosisOf(ds.observable, c);
            risk.amountAtRiskMinor == diagnosis.amountMinor && risk.currency == diagnosis.currency
  {
    var o := ds.observable;
    WellFormedResolves(ds);
    AllTargetedHave(o.cases, c);
    var i :| 0 <= i < |o.cases| && o.cases[i] == c;
    assert CaseFits(o.cases[i], o.payments, o.subscriptions);
    assert Unique(PaymentId, o.payments) && Unique(SubscriptionId, o.subscriptions);
    hide WellFormed, Realistic, RiskOf, DiagnosisOf, Resolves, Unique;
    if j :| 0 <= j < |o.payments| && PaymentCaseOf(c, o.payments[j]) {
      SamePaymentMoney(o, c, j);
    } else {
      var j :| 0 <= j < |o.subscriptions| && SubscriptionCaseOf(c, o.subscriptions[j]);
      SameSubscriptionMoney(o, c, j);
    }
  }

  lemma SamePaymentMoney(o: Observable, c: Case, j: nat)
    requires Resolves(o, c) && Unique(PaymentId, o.payments) && j < |o.payments| && PaymentCaseOf(c, o.payments[j])
    ensures RiskOf(o, c).amountAtRiskMinor == DiagnosisOf(o, c).amountMinor
    ensures RiskOf(o, c).currency == DiagnosisOf(o, c).currency
  {
    hide History, Successes, Bps, Percent, SortedBy, Having, Unique, Tenure, Summaries;
    IndexFinds(PaymentId, o.payments, j);
  }

  lemma SameSubscriptionMoney(o: Observable, c: Case, j: nat)
    requires Resolves(o, c) && Unique(SubscriptionId, o.subscriptions)
    requires j < |o.subscriptions| && SubscriptionCaseOf(c, o.subscriptions[j])
    ensures RiskOf(o, c).amountAtRiskMinor == DiagnosisOf(o, c).amountMinor
    ensures RiskOf(o, c).currency == DiagnosisOf(o, c).currency
  {
    hide History, Successes, Bps, Percent, SortedBy, Having, Unique, Tenure, Summaries;
    IndexFinds(SubscriptionId, o.subscriptions, j);
  }

  lemma AllTargetedHave(cases: seq<Case>, c: Case)
    requires Targeted(cases) == cases && c in cases
    ensures HasTarget(c)
  {
    assert c in Targeted(cases);
  }

  // ---------------------------------------------------------------------------
  // The contexts, counted in the dataset
  // ---------------------------------------------------------------------------

  /** The payments of a customer before a time, as positions in the dataset. */
  function PaidBy(payments: seq<Payment>, customer: Uuid, time: int): set<nat> {
    set i: nat | i < |payments| && payments[i].customerId == customer && payments[i].createdAt < time
  }

  function CapturedBy(payments: seq<Payment>, customer: Uuid, time: int): set<nat> {
    set i: nat | i < |payments| && payments[i].customerId == customer && payments[i].createdAt < time
                 && payments[i].status == PaymentCaptured
  }

  function TriesFor(attempts: seq<Attempt>, payment: Uuid): set<nat> {
    set i: nat | i < |attempts| && attempts[i].paymentId == payment
  }

  lemma PaidGrows(payments: seq<Payment>, p: Payment, customer: Uuid, time: int)
    ensures var counts := p.customerId == customer && p.createdAt < time;
            && |payments| !in PaidBy(payments, customer, time) && |payments| !in CapturedBy(payments, customer, time)
            && PaidBy(payments + [p], customer, time)
               == PaidBy(payments, customer, time) + (if counts then {|payments|} else {})
            && CapturedBy(payments + [p], customer, time)
               == CapturedBy(payments, customer, time)
                  + (if counts && p.status == PaymentCaptured then {|payments|} else {})
            && History(payments + [p], customer, time)
               == if counts then History(payments, customer, time) + [p] else History(payments, customer, time)
  {
    AppendParts(payments, p);
    assert History(payments, customer, time) + [] == History(payments, customer, time);
  }

  lemma HistoryGrows(payments: seq<Payment>, p: Payment, customer: Uuid, time: int)
    requires |History(payments, customer, time)| == |PaidBy(payments, customer, time)|
    requires Successes(History(payments, customer, time)) == |CapturedBy(payments, customer, time)|
    ensures |History(payments + [p], customer, time)| == |PaidBy(payments + [p], customer, time)|
    ensures Successes(History(payments + [p], customer, time)) == |CapturedBy(payments + [p], customer, time)|
  {
    PaidGrows(payments, p, customer, time);
    TotalAppend(History(payments, customer, time), p, CAPTURED);
    hide History, PaidBy, CapturedBy, Total;
  }

  /** The history is the customer's earlier payments, its successes the captured ones. */
  lemma {:induction false} HistoryCounts(payments: seq<Payment>, customer: Uuid, time: int)
    ensures |History(payments, customer, time)| == |PaidBy(payments, customer, time)|
    ensures Successes(History(payments, customer, time)) == |CapturedBy(payments, customer, time)|
  {
    hide PaidBy, CapturedBy, Successes;
    if payments == [] {
      NothingPaid(customer, time);
    } else {
      hide History;
      var front, p := payments[..|payments| - 1], payments[|payments| - 1];
      HistoryCounts(front, customer, time);
      HistoryGrows(front, p, customer, time);
      assert payments == front + [p];
    }
  }

  lemma NothingPaid(customer: Uuid, time: int)
    ensures PaidBy([], customer, time) == {} == CapturedBy([], customer, time) && Successes([]) == 0
  {
  }

  lemma TriesGrow(attempts: seq<Attempt>, a: Attempt, payment: Uuid)
    ensures |attempts| !in TriesFor(attempts, payment)
    ensures TriesFor(attempts + [a], payment)
         == TriesFor(attempts, payment) + (if a.paymentId == payment then {|attempts|} else {})
  {
  }

  lemma {:induction false} TriesCount(attempts: seq<Attempt>, payment: Uuid)
    ensures |Having(AttemptPayment, attempts, payment)| == |TriesFor(attempts, payment)|
  {
    if attempts != [] {
      var front, a := attempts[..|attempts| - 1], attempts[|attempts| - 1];
      TriesCount(front, payment);
      TriesGrow(front, a, payment);
      HavingAppend(AttemptPayment, front, a, payment);
      hide TriesFor, Having;
      assert attempts == front + [a];
    }
  }

  /** The attempt of a payment that is listed last is the last of its attempts. */
  lemma {:induction false} LastTry(attempts: seq<Attempt>, payment: Uuid, i: nat)
    requires i < |attempts| && attempts[i].paymentId == payment
    requires forall j :: i < j < |attempts| ==> attempts[j].paymentId != payment
    ensures var own := Having(AttemptPayment, attempts, payment);
            own != [] && own[|own| - 1] == attempts[i]
  {
    var n := |attempts| - 1;
    if i < n {
      LastTry(attempts[..n], payment, i);
    }
  }

  /** What a risk context says of a payment, counted in the dataset itself: the customer's
      earlier payments, the captured ones among them, their rate, the payment's attempts and
      the failure code of the one listed last. */
  lemma {:induction false} RiskContextTells(o: Observable, c: Case)
    requires Resolves(o, c) && c.paymentId.Some?
    ensures var r, p := RiskOf(o, c), PaymentOf(o, c.paymentId.value);
            && r.caseId == c.id && r.targetType == "payment" && r.targetId == c.paymentId.value
            && r.customerId == p.customerId && r.amountAtRiskMinor == c.amountAtRiskMinor && r.currency == c.currency
            && r.historyCount == |PaidBy(o.payments, p.customerId, p.createdAt)|
            && r.successCount == |CapturedBy(o.payments, p.customerId, p.createdAt)|
            && RateIs(r.successRateBps, r.successCount, r.historyCount)
            && r.attemptCount == |TriesFor(o.attempts, p.id)| && r.subscriptionStatus == None
            && (r.attemptCount == 0 ==> r.latestFailureCode == None)
            && forall i: nat :: i < |o.attempts| && o.attempts[i].paymentId == p.id
                                && (forall j :: i < j < |o.attempts| ==> o.attempts[j].paymentId != p.id) ==>
                 r.latestFailureCode == o.attempts[i].failureCode
  {
    hide History, Successes, Bps, PaidBy, CapturedBy, Having, TriesFor, RateIs;
    var p := PaymentOf(o, c.paymentId.value);
    HistoryCounts(o.payments, p.customerId, p.createdAt);
    TriesCount(o.attempts, p.id);
    forall i: nat | i < |o.attempts| && o.attempts[i].paymentId == p.id
                    && (forall j :: i < j < |o.attempts| ==> o.attempts[j].paymentId != p.id)
      ensures RiskOf(o, c).latestFailureCode == o.attempts[i].failureCode
    {
      LastTry(o.attempts, p.id, i);
    }
    var prior := History(o.payments, p.customerId, p.createdAt);
    BpsIs(Successes(prior), |prior|);
  }

  /** The same for a subscription, which has no attempts of its own. */
  lemma {:induction false} SubscriptionContextTells(o: Observable, c: Case)
    requires Resolves(o, c) && c.paymentId.None? && c.subscriptionId.Some?
    ensures var r, s := RiskOf(o, c), SubscriptionOf(o, c.subscriptionId.value);
            && r.caseId == c.id && r.targetType == "subscription" && r.targetId == c.subscriptionId.value
            && r.customerId == s.customerId && r.amountAtRiskMinor == c.amountAtRiskMinor && r.currency == c.currency
            && r.historyCount == |PaidBy(o.payments, s.customerId, s.createdAt)|
            && r.successCount == |CapturedBy(o.payments, s.customerId, s.createdAt)|
            && RateIs(r.successRateBps, r.successCount, r.historyCount)
            && r.attemptCount == 0 && r.latestFailureCode == None && r.subscriptionStatus == Some(s.status)
  {
    hide History, Successes, Bps, PaidBy, CapturedBy, RateIs;
    var s := SubscriptionOf(o, c.subscriptionId.value);
    HistoryCounts(o.payments, s.customerId, s.createdAt);
    var prior := History(o.payments, s.customerId, s.createdAt);
    BpsIs(Successes(prior), |prior|);
  }

  /** What a diagnosis context adds to that: the money of the payment itself, the whole days
      since the customer was created, never negative, and the payment's attempts in the order
      of their numbers, those with one number in the order in which they are listed, each
      with its distance in time. */
  lemma {:induction false} DiagnosisContextTells(o: Observable, c: Case)
    requires Resolves(o, c) && c.paymentId.Some?
    ensures var d, p := DiagnosisOf(o, c), PaymentOf(o, c.paymentId.value);
            var own := SortedBy(AttemptNumber, Having(AttemptPayment, o.attempts, p.id));
            var elapsed := p.createdAt - CustomerOf(o, p.customerId).createdAt;
            && d.amountMinor == p.amountMinor && d.currency == p.currency
            && (if elapsed >= 0 then d.tenureDays * 86400 <= elapsed < (d.tenureDays + 1) * 86400
               else d.tenureDays == 0)
            && |d.attempts| == |own| && Ascending(AttemptNumber, own)
            && (forall n :: Having(AttemptNumber, own, n)
                         == Having(AttemptNumber, Having(AttemptPayment, o.attempts, p.id), n))
            && forall k :: 0 <= k < |own| ==>
                 && d.attempts[k].number == own[k].number && d.attempts[k].failureCode == own[k].failureCode
                 && d.attempts[k].offsetSeconds == own[k].attemptedAt - p.createdAt
  {
    var p := PaymentOf(o, c.paymentId.value);
    var tries := Having(AttemptPayment, o.attempts, p.id);
    TenureExactly(CustomerOf(o, p.customerId), p.createdAt);
    SortedAscends(AttemptNumber, tries);
    forall n ensures Having(AttemptNumber, SortedBy(AttemptNumber, tries), n) == Having(AttemptNumber, tries, n) {
      SortedIsStable(AttemptNumber, tries, n);
    }
    hide History, Successes, Percent, Tenure, SortedBy, Having, Ascending;
  }

  lemma TenureExactly(c: Customer, time: int)
    ensures var days, elapsed := Tenure(c, time), time - c.createdAt;
            if elapsed >= 0 then days * 86400 <= elapsed < (days + 1) * 86400 else days == 0
  {
  }
}
