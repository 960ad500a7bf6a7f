/** The synthetic generator. Whatever the random stream, its datasets pass the validator and
    have exactly the configured sizes. */
module Generator {
  import opened Identity
  import opened Domain
  import opened Dataset
  import opened Collections
  import opened Sorting
  import opened Sampling
  import opened Validator
  import opened Sequences
  import opened Rates

  datatype GeneratorConfig = GeneratorConfig(
    numCustomers: int,
    numPayments: int,
    subscriptionRatioBps: int,
    startDate: int,
    weights: seq<Weight<Scenario>>)

  datatype Profile = Profile(successRateBps: int, minAmountMinor: int, maxAmountMinor: int)

  /** Reliable, intermittent, high value, chronic failure, new customer. */
  const PROFILES: seq<Profile> := [
    Profile(9000, 50000, 250000),
    Profile(5500, 30000, 350000),
    Profile(8500, 500000, 5000000),
    Profile(1800, 20000, 150000),
    Profile(7000, 40000, 200000)]

  datatype ScenarioSpec = ScenarioSpec(targetType: string, recoverable: bool)

  function SpecOf(s: Scenario): ScenarioSpec {
    match s
    case SubscriptionFailure => ScenarioSpec("subscription", true)
    case ClearlyNonRecoverable | RepeatedFailure => ScenarioSpec("payment", false)
    case HighProbabilityRecoverable | LowProbabilityRecoverable | NewCustomerDrop
       | TemporaryFailureAfterSuccess | HighValueFailure => ScenarioSpec("payment", true)
  }

  /** Hard declines and exhausted retries cannot be recovered; one scenario is about subscriptions. */
  lemma SpecsExactly(s: Scenario)
    ensures SpecOf(s).recoverable <==> s !in {ClearlyNonRecoverable, RepeatedFailure}
    ensures SpecOf(s).targetType == if s == SubscriptionFailure then "subscription" else "payment"
  {
  }

  const FAILURE_CODES: seq<string> :=
    ["temporary_failure", "insufficient_funds", "expired_payment_method", "generic_decline", "unknown_failure"]

  function Count(n: int): nat { if n > 0 then n else 0 }

  // ---------------------------------------------------------------------------
  // Fresh ids and numbered labels
  // ---------------------------------------------------------------------------

  predicate IdsBelow<T>(key: T -> Uuid, xs: seq<T>, limit: nat) {
    forall i :: 0 <= i < |xs| ==> key(xs[i]).Random? && key(xs[i]).serial < limit
  }

  lemma FreshId<T>(key: T -> Uuid, xs: seq<T>, x: T, limit: nat)
    requires IdsBelow(key, xs, limit) && Unique(key, xs) && key(x) == Random(limit)
    ensures Unique(key, xs + [x]) && IdsBelow(key, xs + [x], limit + 1) && key(x) !in Image(key, xs)
  {
  }

  predicate Labelled<T>(key: T -> string, prefix: string, width: nat, xs: seq<T>) {
    forall i :: 0 <= i < |xs| ==> key(xs[i]) == Label(prefix, i + 1, width)
  }

  lemma LabelledUnique<T>(key: T -> string, prefix: string, width: nat, xs: seq<T>)
    requires Labelled(key, prefix, width, xs)
    ensures Unique(key, xs)
  {
    forall i, j | 0 <= i < j < |xs| ensures key(xs[i]) != key(xs[j]) {
      if key(xs[i]) == key(xs[j]) {
        LabelsDiffer(prefix, i + 1, j + 1, width);
      }
    }
  }

  // ---------------------------------------------------------------------------
  // What each phase leaves behind
  // ---------------------------------------------------------------------------

  ghost predicate CustomersMade(customers: seq<Customer>, profiles: map<Uuid, Profile>, limit: nat) {
    && CustomersFine(customers) && IdsBelow(CustomerId, customers, limit)
    && Labelled(CustomerExternalId, "cust_syn_", 6, customers)
    && forall i :: 0 <= i < |customers| ==>
         customers[i].id in profiles && profiles[customers[i].id] == PROFILES[i % |PROFILES|]
  }

  ghost predicate SubscriptionsMade(subscriptions: seq<Subscription>, customers: seq<Customer>, limit: nat) {
    && SubscriptionsFine(subscriptions, customers) && IdsBelow(SubscriptionId, subscriptions, limit)
    && Labelled(SubscriptionExternalId, "sub_syn_", 6, subscriptions)
  }

  /** Numbered 1, .., n in the order in which they were made. */
  ghost predicate InOrder(attempts: seq<Attempt>) {
    forall payment :: Numbers(attempts, payment) == OneTo(|Numbers(attempts, payment)|)
  }

  ghost predicate PaymentsMade(payments: seq<Payment>, attempts: seq<Attempt>, customers: seq<Customer>, limit: nat) {
    && Labelled(PaymentExternalId, "pay_syn_", 7, payments)
    && PaymentsFine(payments, customers) && IdsBelow(PaymentId, payments, limit)
    && Unique(AttemptId, attempts) && IdsBelow(AttemptId, attempts, limit)
    && (forall i :: 0 <= i < |attempts| ==> PaidBefore(payments, attempts[i]))
    && InOrder(attempts)
  }

  /** A ground-truth entry tells the truth about its case. */
  predicate Describes(t: GroundTruth, c: Case) {
    && t.caseId == c.id && t.recoverable == SpecOf(t.scenario).recoverable
    && t.targetType == SpecOf(t.scenario).targetType
    && (if t.targetType == "payment" then c.paymentId == Some(t.targetId) else c.subscriptionId == Some(t.targetId))
  }

  ghost predicate CasesMade(cases: seq<Case>, truths: seq<GroundTruth>, payments: seq<Payment>,
                            subscriptions: seq<Subscription>, limit: nat) {
    && CasesFine(cases, payments, subscriptions) && IdsBelow(CaseId, cases, limit)
    && |truths| == |cases| && forall i :: 0 <= i < |cases| ==> Describes(truths[i], cases[i])
  }

  lemma IdsStayBelow<T>(key: T -> Uuid, xs: seq<T>, limit: nat, later: nat)
    requires IdsBelow(key, xs, limit) && limit <= later
    ensures IdsBelow(key, xs, later)
  {
  }

  // ---------------------------------------------------------------------------
  // Shares: payments per customer
  // ---------------------------------------------------------------------------

  /** How many of `m` payments customer `c` of `n` gets when they are dealt round robin. */
  function Share(m: nat, n: nat, c: nat): nat
    requires n > 0
  {
    m / n + (if c < m % n then 1 else 0)
  }

  lemma {:induction false} NextShare(m: nat, n: nat, c: nat)
    requires c < n
    ensures Share(m + 1, n, c) == Share(m, n, c) + (if c == m % n then 1 else 0)
  {
    if m % n == n - 1 {
      DivisionIs(m + 1, n, m / n + 1, 0);
    } else {
      DivisionIs(m + 1, n, m / n, m % n + 1);
    }
  }

  lemma {:induction false} DivisionIs(m: nat, n: nat, q: nat, r: nat)
    requires r < n && m == q * n + r
    ensures m / n == q && m % n == r
  {
    var k := m / n;
    assert m == k * n + m % n;
    if k < q {
      ProductsOrdered(k + 1, q, n);
    } else if q < k {
      ProductsOrdered(q + 1, k, n);
    }
  }

  /** The payments of a round-robin deal that fall to customer `c`. */
  function DealtTo(m: nat, n: nat, c: nat): set<nat>
    requires n > 0
  {
    set p: nat | p < m && p % n == c
  }

  lemma NextDealt(m: nat, n: nat, c: nat)
    requires c < n
    ensures DealtTo(m + 1, n, c) == DealtTo(m, n, c) + if c == m % n then {m} else {}
  {
  }

  lemma NothingDealt(n: nat, c: nat)
    requires c < n
    ensures Share(0, n, c) == 0 && DealtTo(0, n, c) == {}
  {
    DivisionIs(0, n, 0, 0);
  }

  /** A share is the number of payments dealt to the customer. */
  lemma {:induction false} ShareCounts(m: nat, n: nat, c: nat)
    requires c < n
    ensures Share(m, n, c) == |DealtTo(m, n, c)|
  {
    if m == 0 {
      NothingDealt(n, c);
    } else {
      ShareCounts(m - 1, n, c);
      NextShare(m - 1, n, c);
      NextDealt(m - 1, n, c);
      assert m - 1 !in DealtTo(m - 1, n, c);
      hide Share, DealtTo;
    }
  }

  function SharesUpTo(m: nat, n: nat, k: nat): nat {
    if k == 0 || n == 0 then 0 else SharesUpTo(m, n, k - 1) + Share(m, n, k - 1)
  }

  lemma {:induction false} SharesFrom(m: nat, n: nat, k: nat)
    requires 0 < n && k <= n
    ensures SharesUpTo(m, n, k) == k * (m / n) + (if k < m % n then k else m % n)
  {
    if k > 0 {
      SharesFrom(m, n, k - 1);
      OneMore(k, m / n);
    }
  }

  lemma OneMore(k: int, d: int)
    ensures k * d == (k - 1) * d + d
  {
  }

  lemma SharesAddUp(m: nat, n: nat)
    requires 0 < n
    ensures SharesUpTo(m, n, n) == m
  {
    SharesFrom(m, n, n);
    assert m == n * (m / n) + m % n;
  }

  // ---------------------------------------------------------------------------
  // One more entity
  // ---------------------------------------------------------------------------

  lemma LabelAdded<T>(key: T -> string, prefix: string, width: nat, xs: seq<T>, x: T)
    requires Labelled(key, prefix, width, xs) && key(x) == Label(prefix, |xs| + 1, width)
    ensures Labelled(key, prefix, width, xs + [x]) && Unique(key, xs + [x])
  {
    LabelledUnique(key, prefix, width, xs + [x]);
  }

  lemma CustomerAdded(customers: seq<Customer>, profiles: map<Uuid, Profile>, c: Customer, limit: nat)
    requires CustomersMade(customers, profiles, limit)
    requires c.id == Random(limit) && c.externalId == Label("cust_syn_", |customers| + 1, 6)
    ensures CustomersMade(customers + [c], profiles[c.id := PROFILES[|customers| % |PROFILES|]], limit + 1)
  {
    FreshId(CustomerId, customers, c, limit);
    LabelAdded(CustomerExternalId, "cust_syn_", 6, customers, c);
    hide Labelled, Label, Unique, IdsBelow;
    forall i | 0 <= i < |customers| ensures customers[i].id != c.id {
      assert CustomerId(customers[i]) in Image(CustomerId, customers);
    }
  }

  lemma Owns(customers: seq<Customer>, k: nat, time: int)
    requires Unique(CustomerId, customers) && k < |customers| && customers[k].createdAt <= time
    ensures BelongsTo(customers, customers[k].id, time)
  {
  }

  lemma SubscriptionAdded(subscriptions: seq<Subscription>, customers: seq<Customer>, s: Subscription, limit: nat)
    requires SubscriptionsMade(subscriptions, customers, limit)
    requires s.id == Random(limit) && s.externalId == Label("sub_syn_", |subscriptions| + 1, 6)
    requires BelongsTo(customers, s.customerId, s.createdAt) && s.amountMinor >= 0
    ensures SubscriptionsMade(subscriptions + [s], customers, limit + 1)
  {
    FreshId(SubscriptionId, subscriptions, s, limit);
    LabelAdded(SubscriptionExternalId, "sub_syn_", 6, subscriptions, s);
    hide Labelled, Label, Unique, IdsBelow, BelongsTo;
  }

  lemma PaymentAdded(payments: seq<Payment>, attempts: seq<Attempt>, customers: seq<Customer>, p: Payment, limit: nat)
    requires PaymentsMade(payments, attempts, customers, limit)
    requires p.id == Random(limit) && p.externalId == Label("pay_syn_", |payments| + 1, 7)
    requires BelongsTo(customers, p.customerId, p.createdAt) && p.amountMinor >= 0
    ensures PaymentsMade(payments + [p], attempts, customers, limit + 1)
    ensures Numbers(attempts, p.id) == [] && Having(AttemptPayment, attempts, p.id) == []
  {
    FreshId(PaymentId, payments, p, limit);
    LabelAdded(PaymentExternalId, "pay_syn_", 7, payments, p);
    IdsStayBelow(AttemptId, attempts, limit, limit + 1);
    ImageAppend(PaymentId, payments, p);
    hide Labelled, Label, Unique, IdsBelow, BelongsTo, InOrder;
    forall i | 0 <= i < |attempts| ensures attempts[i].paymentId != p.id && PaidBefore(payments + [p], attempts[i]) {
      assert PaidBefore(payments, attempts[i]);
    }
    NotInImage(AttemptPayment, attempts, p.id);
    HavingNone(AttemptPayment, attempts, p.id);
  }

  lemma AttemptAdded(payments: seq<Payment>, attempts: seq<Attempt>, customers: seq<Customer>, a: Attempt, limit: nat)
    requires PaymentsMade(payments, attempts, customers, limit)
    requires a.id == Random(limit) && PaidBefore(payments, a)
    requires a.number == |Numbers(attempts, a.paymentId)| + 1
    ensures PaymentsMade(payments, attempts + [a], customers, limit + 1)
    ensures |Numbers(attempts + [a], a.paymentId)| == a.number
  {
    FreshId(AttemptId, attempts, a, limit);
    IdsStayBelow(PaymentId, payments, limit, limit + 1);
    NumberAdded(attempts, a);
    hide Labelled, Unique, IdsBelow, PaymentsFine, PaidBefore, Numbers;
  }

  lemma NumberAdded(attempts: seq<Attempt>, a: Attempt)
    requires InOrder(attempts) && a.number == |Numbers(attempts, a.paymentId)| + 1
    ensures InOrder(attempts + [a]) && |Numbers(attempts + [a], a.paymentId)| == a.number
  {
    forall payment
      ensures Numbers(attempts + [a], payment)
           == if payment == a.paymentId then Numbers(attempts, payment) + [a.number] else Numbers(attempts, payment)
    {
      HavingAppend(AttemptPayment, attempts, a, payment);
    }
  }

  lemma Paid(payments: seq<Payment>, k: nat, a: Attempt)
    requires Unique(PaymentId, payments) && k < |payments|
    requires a.paymentId == payments[k].id && payments[k].createdAt <= a.attemptedAt
    ensures PaidBefore(payments, a)
  {
  }

  lemma CaseAdded(cases: seq<Case>, truths: seq<GroundTruth>, payments: seq<Payment>, subscriptions: seq<Subscription>,
                  c: Case, t: GroundTruth, limit: nat)
    requires CasesMade(cases, truths, payments, subscriptions, limit)
    requires c.id == Random(limit) && CaseFine(c, payments, subscriptions) && Describes(t, c)
    ensures CasesMade(cases + [c], truths + [t], payments, subscriptions, limit + 1)
  {
  }

  // ---------------------------------------------------------------------------
  // One case per target
  // ---------------------------------------------------------------------------

  /** What a case is about. */
  function CaseTarget(c: Case): TargetKey {
    if c.paymentId.Some? then TargetKey("payment", c.paymentId.value)
    else if c.subscriptionId.Some? then TargetKey("subscription", c.subscriptionId.value)
    else TargetKey("", Random(0))
  }

  /** The cases are about different payments and subscriptions, all of them among these. */
  ghost predicate CasesAbout(cases: seq<Case>, payments: seq<Payment>, subscriptions: seq<Subscription>) {
    && Unique(CaseTarget, cases)
    && forall i :: 0 <= i < |cases| ==>
         || (cases[i].paymentId.Some? && cases[i].paymentId.value in Image(PaymentId, payments))
         || (cases[i].paymentId.None? && cases[i].subscriptionId.Some?
             && cases[i].subscriptionId.value in Image(SubscriptionId, subscriptions))
  }

  lemma PaymentCaseAbout(cases: seq<Case>, payments: seq<Payment>, subscriptions: seq<Subscription>, p: Payment,
                         c: Case)
    requires CasesAbout(cases, payments, subscriptions)
    requires p.id !in Image(PaymentId, payments) && c.paymentId == Some(p.id)
    ensures CasesAbout(cases + [c], payments + [p], subscriptions)
  {
    NotInImage(CaseTarget, cases, CaseTarget(c));
    UniqueAppend(CaseTarget, cases, c);
    ImageAppend(PaymentId, payments, p);
    hide Unique, Image;
  }

  lemma SubscriptionCaseAbout(cases: seq<Case>, payments: seq<Payment>, subscriptions: seq<Subscription>,
                              s: Subscription, c: Case)
    requires CasesAbout(cases, payments, subscriptions)
    requires s.id !in Image(SubscriptionId, subscriptions) && c.paymentId == None && c.subscriptionId == Some(s.id)
    ensures CasesAbout(cases + [c], payments, subscriptions + [s])
  {
    NotInImage(CaseTarget, cases, CaseTarget(c));
    UniqueAppend(CaseTarget, cases, c);
    ImageAppend(SubscriptionId, subscriptions, s);
    hide Unique, Image;
  }

  /** Payments and subscriptions that got no case do no harm. */
  lemma MoreAbout(cases: seq<Case>, payments: seq<Payment>, subscriptions: seq<Subscription>, p: seq<Payment>,
                  s: seq<Subscription>)
    requires CasesAbout(cases, payments, subscriptions)
    ensures CasesAbout(cases, payments + p, subscriptions + s)
  {
    hide Unique;
    forall i | 0 <= i < |payments| ensures PaymentId(payments[i]) in Image(PaymentId, payments + p) {
      assert (payments + p)[i] == payments[i];
    }
    forall i | 0 <= i < |subscriptions|
      ensures SubscriptionId(subscriptions[i]) in Image(SubscriptionId, subscriptions + s)
    {
      assert (subscriptions + s)[i] == subscriptions[i];
    }
  }

  lemma NotBefore<T, U>(key: T -> U, xs: seq<T>, i: nat)
    requires Unique(key, xs) && i < |xs|
    ensures key(xs[i]) !in Image(key, xs[..i])
  {
    NotInImage(key, xs[..i], key(xs[i]));
  }

  // ---------------------------------------------------------------------------
  // What the entities look like
  // ---------------------------------------------------------------------------

  predicate InRange(profile: Profile, amount: int) {
    profile.minAmountMinor <= amount <= profile.maxAmountMinor
  }

  predicate DatedFrom(customers: seq<Customer>, start: int) {
    forall i :: 0 <= i < |customers| ==> start <= customers[i].createdAt <= start + 30 * 86400
  }

  /** An amount in the range of its customer's profile, an hour to five days after the customer. */
  predicate SubscriptionOfCustomer(customers: seq<Customer>, k: nat, s: Subscription) {
    && k < |customers| && s.customerId == customers[k].id && s.currency == "INR"
    && InRange(PROFILES[k % |PROFILES|], s.amountMinor)
    && 3600 <= s.createdAt - customers[k].createdAt <= 5 * 86400
  }

  predicate PaymentOfCustomer(customers: seq<Customer>, k: nat, p: Payment) {
    && k < |customers| && p.customerId == customers[k].id && p.currency == "INR"
    && InRange(PROFILES[k % |PROFILES|], p.amountMinor)
    && p.createdAt >= customers[k].createdAt + 3600 && p.status in {PaymentCaptured, PaymentFailed}
  }

  ghost predicate SubscriptionFits(s: Subscription, customers: seq<Customer>) {
    exists k: nat :: SubscriptionOfCustomer(customers, k, s)
  }

  ghost predicate PaymentFits(p: Payment, customers: seq<Customer>) {
    exists k: nat :: PaymentOfCustomer(customers, k, p)
  }

  ghost predicate SubscriptionsFit(subscriptions: seq<Subscription>, customers: seq<Customer>) {
    forall i :: 0 <= i < |subscriptions| ==> SubscriptionFits(subscriptions[i], customers)
  }

  ghost predicate PaymentsFit(payments: seq<Payment>, customers: seq<Customer>) {
    forall i :: 0 <= i < |payments| ==> PaymentFits(payments[i], customers)
  }

  /** The n-th attempt of a payment: the only one, five seconds later and without failure, of a
      captured payment, or one of several, two minutes apart, with one of the failure codes. */
  predicate TryFits(p: Payment, n: nat, a: Attempt) {
    if p.status == PaymentCaptured then a.failureCode == None && a.attemptedAt == p.createdAt + 5
    else
      && a.failureCode.Some? && a.failureCode.value in FAILURE_CODES
      && a.attemptedAt == p.createdAt + 120 * (n + 1)
  }

  ghost predicate TriesFit(p: Payment, tries: seq<Attempt>) {
    && 1 <= |tries| <= (if p.status == PaymentCaptured then 1 else 3)
    && forall n :: 0 <= n < |tries| ==> TryFits(p, n, tries[n])
  }

  ghost predicate TriesMade(payments: seq<Payment>, attempts: seq<Attempt>) {
    forall i :: 0 <= i < |payments| ==> TriesFit(payments[i], Having(AttemptPayment, attempts, payments[i].id))
  }

  /** The case of a failed payment, five minutes later, and of a past-due subscription, thirty
      days and ten minutes later. Both copy the money. */
  predicate PaymentCaseOf(c: Case, p: Payment) {
    && c.paymentId == Some(p.id) && c.subscriptionId == None && p.status == PaymentFailed
    && c.amountAtRiskMinor == p.amountMinor && c.currency == p.currency && c.detectedAt == p.createdAt + 300
  }

  predicate SubscriptionCaseOf(c: Case, s: Subscription) {
    && c.paymentId == None && c.subscriptionId == Some(s.id) && s.status == PastDue
    && c.amountAtRiskMinor == s.amountMinor && c.currency == s.currency
    && c.detectedAt == s.createdAt + 30 * 86400 + 600
  }

  ghost predicate CaseFits(c: Case, payments: seq<Payment>, subscriptions: seq<Subscription>) {
    || (exists j :: 0 <= j < |payments| && PaymentCaseOf(c, payments[j]))
    || (exists j :: 0 <= j < |subscriptions| && SubscriptionCaseOf(c, subscriptions[j]))
  }

  ghost predicate CasesFit(cases: seq<Case>, payments: seq<Payment>, subscriptions: seq<Subscription>) {
    forall i :: 0 <= i < |cases| ==> CaseFits(cases[i], payments, subscriptions)
  }

  ghost predicate HasCase(cases: seq<Case>, s: Subscription) {
    exists i :: 0 <= i < |cases| && SubscriptionCaseOf(cases[i], s)
  }

  /** A subscription is active, or past due with a case. */
  ghost predicate PastDueHaveCases(cases: seq<Case>, subscriptions: seq<Subscription>) {
    forall j :: 0 <= j < |subscriptions| ==> subscriptions[j].status == Active || HasCase(cases, subscriptions[j])
  }

  ghost predicate Realistic(ds: SyntheticDataset, start: int) {
    var o := ds.observable;
    && Labelled(CustomerExternalId, "cust_syn_", 6, o.customers)
    && Labelled(SubscriptionExternalId, "sub_syn_", 6, o.subscriptions)
    && Labelled(PaymentExternalId, "pay_syn_", 7, o.payments)
    && DatedFrom(o.customers, start) && SubscriptionsFit(o.subscriptions, o.customers)
    && PaymentsFit(o.payments, o.customers) && TriesMade(o.payments, o.attempts)
    && CasesFit(o.cases, o.payments, o.subscriptions) && PastDueHaveCases(o.cases, o.subscriptions)
  }

  lemma MoreToFit(c: Case, payments: seq<Payment>, subscriptions: seq<Subscription>, p: seq<Payment>,
                  s: seq<Subscription>)
    requires CaseFits(c, payments, subscriptions)
    ensures CaseFits(c, payments + p, subscriptions + s)
  {
    if j :| 0 <= j < |payments| && PaymentCaseOf(c, payments[j]) {
      assert (payments + p)[j] == payments[j];
    } else {
      var j :| 0 <= j < |subscriptions| && SubscriptionCaseOf(c, subscriptions[j]);
      assert (subscriptions + s)[j] == subscriptions[j];
    }
  }

  lemma CasesFitMore(cases: seq<Case>, payments: seq<Payment>, subscriptions: seq<Subscription>, p: seq<Payment>,
                     s: seq<Subscription>)
    requires CasesFit(cases, payments, subscriptions)
    ensures CasesFit(cases, payments + p, subscriptions + s)
  {
    hide CaseFits;
    forall i | 0 <= i < |cases| ensures CaseFits(cases[i], payments + p, subscriptions + s) {
      MoreToFit(cases[i], payments, subscriptions, p, s);
    }
  }

  lemma CasesFitAppend(cases: seq<Case>, payments: seq<Payment>, subscriptions: seq<Subscription>, c: Case)
    requires CasesFit(cases, payments, subscriptions) && CaseFits(c, payments, subscriptions)
    ensures CasesFit(cases + [c], payments, subscriptions)
  {
    hide CaseFits;
    forall i | 0 <= i < |cases + [c]| ensures CaseFits((cases + [c])[i], payments, subscriptions) {
      assert (cases + [c])[i] == if i < |cases| then cases[i] else c;
    }
  }

  lemma LastFits(c: Case, payments: seq<Payment>, subscriptions: seq<Subscription>)
    requires || (payments != [] && PaymentCaseOf(c, payments[|payments| - 1]))
             || (subscriptions != [] && SubscriptionCaseOf(c, subscriptions[|subscriptions| - 1]))
    ensures CaseFits(c, payments, subscriptions)
  {
  }

  lemma HaveCasesLater(cases: seq<Case>, subscriptions: seq<Subscription>, more: seq<Case>, s: Subscription)
    requires PastDueHaveCases(cases, subscriptions)
    requires s.status == Active || (more != [] && SubscriptionCaseOf(more[|more| - 1], s))
    ensures PastDueHaveCases(cases + more, subscriptions + [s])
  {
    var all, longer := cases + more, subscriptions + [s];
    forall j | 0 <= j < |longer| && longer[j].status != Active ensures HasCase(all, longer[j]) {
      if j < |subscriptions| {
        assert longer[j] == subscriptions[j];
        var i :| 0 <= i < |cases| && SubscriptionCaseOf(cases[i], subscriptions[j]);
        assert all[i] == cases[i];
      } else {
        assert all[|all| - 1] == more[|more| - 1];
      }
    }
  }

  /** Cases of failed payments are cases of payments. */
  lemma CasesFitAll(cases: seq<Case>, payments: seq<Payment>, failed: seq<Payment>, subscriptions: seq<Subscription>)
    requires CasesFit(cases, failed, subscriptions) && forall p :: p in failed ==> p in payments
    ensures CasesFit(cases, payments, subscriptions)
  {
    forall i | 0 <= i < |cases| ensures CaseFits(cases[i], payments, subscriptions) {
      assert CaseFits(cases[i], failed, subscriptions);
      if j :| 0 <= j < |failed| && PaymentCaseOf(cases[i], failed[j]) {
        assert failed[j] in payments;
        var k :| 0 <= k < |payments| && payments[k] == failed[j];
      }
    }
  }

  lemma OthersKeepTries(payments: seq<Payment>, attempts: seq<Attempt>, p: Payment, newAttempts: seq<Attempt>)
    requires TriesMade(payments, attempts) && Unique(PaymentId, payments + [p])
    requires forall id :: id != p.id ==>
               Having(AttemptPayment, newAttempts, id) == Having(AttemptPayment, attempts, id)
    requires TriesFit(p, Having(AttemptPayment, newAttempts, p.id))
    ensures TriesMade(payments + [p], newAttempts)
  {
    hide TriesFit;
    var all := payments + [p];
    forall i | 0 <= i < |all| ensures TriesFit(all[i], Having(AttemptPayment, newAttempts, all[i].id)) {
      if i < |payments| {
        assert PaymentId(all[i]) != PaymentId(all[|payments|]);
        assert all[i] == payments[i];
      }
    }
  }

  lemma PaymentsFitAppend(payments: seq<Payment>, customers: seq<Customer>, k: nat, p: Payment)
    requires PaymentsFit(payments, customers) && PaymentOfCustomer(customers, k, p)
    ensures PaymentsFit(payments + [p], customers)
  {
    assert PaymentFits(p, customers);
    hide PaymentFits;
  }

  lemma SubscriptionsFitAppend(subscriptions: seq<Subscription>, customers: seq<Customer>, k: nat, s: Subscription)
    requires SubscriptionsFit(subscriptions, customers) && SubscriptionOfCustomer(customers, k, s)
    ensures SubscriptionsFit(subscriptions + [s], customers)
  {
    assert SubscriptionFits(s, customers);
    hide SubscriptionFits;
  }

  lemma SubscriptionsFitLater(before: seq<Subscription>, after: seq<Subscription>, customers: seq<Customer>)
    requires SubscriptionsFit(before, customers) && SyntheticDataGenerator.SameButStatus(before, after)
    ensures SubscriptionsFit(after, customers)
  {
    forall i | 0 <= i < |after| ensures SubscriptionFits(after[i], customers) {
      assert SubscriptionFits(before[i], customers);
      var k: nat :| SubscriptionOfCustomer(customers, k, before[i]);
      assert SubscriptionOfCustomer(customers, k, after[i]);
    }
  }

  // ---------------------------------------------------------------------------
  // The generator
  // ---------------------------------------------------------------------------

  class SyntheticDataGenerator {
    const config: GeneratorConfig
    const rng: Rng

    constructor (config: GeneratorConfig, rng: Rng)
      ensures this.config == config && this.rng == rng
    {
      this.config, this.rng := config, rng;
    }

    /** Never the fallback: the answer is always one of the weighted scenarios. */
    method SampleScenario() returns (s: Scenario)
      requires Sum(config.weights) > 0
      modifies rng`position
      ensures var i := First(config.weights, rng.Drawn(old(rng.position), 0, Sum(config.weights) - 1));
              i < |config.weights| && s == config.weights[i].outcome
      ensures rng.position == old(rng.position) + 1
    {
      hide Rng.Drawn;
      var choice := rng.RandInt(0, Sum(config.weights) - 1);
      FallbackUnreachable(config.weights, choice);
      s := Pick(config.weights, choice, HighProbabilityRecoverable);
    }

    method GenerateCustomers() returns (customers: seq<Customer>, profiles: map<Uuid, Profile>)
      modifies rng
      ensures |customers| == Count(config.numCustomers) && CustomersMade(customers, profiles, rng.issued)
      ensures DatedFrom(customers, config.startDate)
    {
      customers, profiles := [], map[];
      for i := 0 to Count(config.numCustomers)
        invariant |customers| == i && CustomersMade(customers, profiles, rng.issued)
        invariant DatedFrom(customers, config.startDate)
      {
        var id := rng.FreshUuid();
        var offset := rng.RandInt(0, 30 * 86400);
        var customer := Customer(id, Label("cust_syn_", i + 1, 6), config.startDate + offset);
        CustomerAdded(customers, profiles, customer, rng.issued - 1);
        profiles := profiles[id := PROFILES[i % |PROFILES|]];
        customers := customers + [customer];
      }
    }

    method GenerateSubscriptions(customers: seq<Customer>, profiles: map<Uuid, Profile>)
      returns (subscriptions: seq<Subscription>)
      requires CustomersMade(customers, profiles, rng.issued)
      modifies rng
      ensures SubscriptionsMade(subscriptions, customers, rng.issued)
      ensures |subscriptions| <= |customers| && old(rng.issued) <= rng.issued
      ensures SubscriptionsFit(subscriptions, customers)
      ensures forall i :: 0 <= i < |subscriptions| ==> subscriptions[i].status == Active
      ensures config.subscriptionRatioBps <= 0 ==> subscriptions == []
      ensures config.subscriptionRatioBps >= 10000 ==> |subscriptions| == |customers|
    {
      hide SubscriptionsFit;
      subscriptions := [];
      NothingToFit(customers);
      for i := 0 to |customers|
        invariant SubscriptionsMade(subscriptions, customers, rng.issued)
        invariant |subscriptions| <= i && old(rng.issued) <= rng.issued
        invariant SubscriptionsFit(subscriptions, customers)
        invariant forall j :: 0 <= j < |subscriptions| ==> subscriptions[j].status == Active
        invariant config.subscriptionRatioBps <= 0 ==> subscriptions == []
        invariant config.subscriptionRatioBps >= 10000 ==> |subscriptions| == i
      {
        var customer := customers[i];
        var lot := rng.RandInt(0, 9999);
        if lot < config.subscriptionRatioBps {
          var id := rng.FreshUuid();
          var profile := profiles[customer.id];
          var delay := rng.RandInt(3600, 86400 * 5);
          var amount := rng.RandInt(profile.minAmountMinor, profile.maxAmountMinor);
          var subscription := Subscription(id, Label("sub_syn_", |subscriptions| + 1, 6), customer.id, amount, "INR",
                                           Active, customer.createdAt + delay);
          Owns(customers, i, customer.createdAt + delay);
          SubscriptionAdded(subscriptions, customers, subscription, rng.issued - 1);
          SubscriptionsFitAppend(subscriptions, customers, i, subscription);
          subscriptions := subscriptions + [subscription];
        }
      }
    }

    lemma NothingToFit(customers: seq<Customer>)
      ensures SubscriptionsFit([], customers) && PaymentsFit([], customers) && TriesMade([], [])
      ensures CasesFit([], [], []) && PastDueHaveCases([], [])
    {
    }

    /** Deals the payments to the customers round robin. */
    method AllocatePayments(customers: nat) returns (counts: array<nat>)
      requires customers > 0 || config.numPayments <= 0
      ensures fresh(counts) && counts.Length == customers
      ensures forall c :: 0 <= c < customers ==> counts[c] == Share(Count(config.numPayments), customers, c)
    {
      counts := new nat[customers](_ => 0);
      for p := 0 to Count(config.numPayments)
        invariant forall c :: 0 <= c < customers ==> counts[c] == Share(p, customers, c)
      {
        forall c: nat | c < customers
          ensures Share(p + 1, customers, c) == Share(p, customers, c) + (if c == p % customers then 1 else 0)
        {
          NextShare(p, customers, c);
        }
        counts[p % customers] := counts[p % customers] + 1;
      }
    }

    /** One payment at the given time, with its attempts. */
    method GeneratePayment(customers: seq<Customer>, k: nat, profile: Profile, time: int, payments: seq<Payment>,
                           attempts: seq<Attempt>)
      returns (payment: Payment, newAttempts: seq<Attempt>)
      requires k < |customers| && CustomersFine(customers) && customers[k].createdAt + 3600 <= time
      requires PaymentsMade(payments, attempts, customers, rng.issued)
      requires profile == PROFILES[k % |PROFILES|]
      modifies rng
      ensures PaymentsMade(payments + [payment], newAttempts, customers, rng.issued)
      ensures payment.customerId == customers[k].id && payment.createdAt == time
      ensures PaymentOfCustomer(customers, k, payment)
      ensures payment.status == PaymentCaptured
              <==> rng.Drawn(old(rng.position) + 1, 0, 9999) < profile.successRateBps
      ensures TriesMade(payments, attempts) ==> TriesMade(payments + [payment], newAttempts)
      ensures old(rng.issued) <= rng.issued
    {
      hide PaymentsMade, InOrder, PaidBefore, BelongsTo, Numbers, CustomersFine, Label, Having, TriesMade, Unique;
      hide Rng.Drawn;
      var id := rng.FreshUuid();
      var amount := rng.RandInt(profile.minAmountMinor, profile.maxAmountMinor);
      var lot := rng.RandInt(0, 9999);
      var isSuccess := lot < profile.successRateBps;
      payment := Payment(id, Label("pay_syn_", |payments| + 1, 7), customers[k].id, amount, "INR",
                         if isSuccess then PaymentCaptured else PaymentFailed, time);
      UniqueCustomers(customers);
      Owns(customers, k, time);
      PaymentAdded(payments, attempts, customers, payment, rng.issued - 1);
      ghost var all := payments + [payment];
      UniquePayments(all, attempts, customers, rng.issued);
      newAttempts := attempts;
      var count := 1;
      if !isSuccess {
        count := rng.RandInt(1, 3);
      }
      for number := 1 to count + 1
        invariant PaymentsMade(all, newAttempts, customers, rng.issued) && old(rng.issued) <= rng.issued
        invariant |Numbers(newAttempts, id)| == number - 1
        invariant var tries := Having(AttemptPayment, newAttempts, id);
                  |tries| == number - 1 && forall n :: 0 <= n < |tries| ==> TryFits(payment, n, tries[n])
        invariant forall other :: other != id ==>
                    Having(AttemptPayment, newAttempts, other) == Having(AttemptPayment, attempts, other)
      {
        var failureCode := None;
        if !isSuccess {
          var choice := rng.RandInt(0, |FAILURE_CODES| - 1);
          failureCode := Some(FAILURE_CODES[choice]);
        }
        var attemptId := rng.FreshUuid();
        var attempt := Attempt(attemptId, id, number, failureCode, time + if isSuccess then 5 else number * 120);
        Paid(all, |payments|, attempt);
        AttemptAdded(all, newAttempts, customers, attempt, rng.issued - 1);
        forall other
          ensures Having(AttemptPayment, newAttempts + [attempt], other)
               == if other == id then Having(AttemptPayment, newAttempts, other) + [attempt]
                  else Having(AttemptPayment, newAttempts, other)
        {
          HavingAppend(AttemptPayment, newAttempts, attempt, other);
        }
        newAttempts := newAttempts + [attempt];
      }
      if TriesMade(payments, attempts) {
        OthersKeepTries(payments, attempts, payment, newAttempts);
      }
    }

    lemma UniqueCustomers(customers: seq<Customer>)
      requires CustomersFine(customers)
      ensures Unique(CustomerId, customers)
    {
    }

    lemma UniquePayments(payments: seq<Payment>, attempts: seq<Attempt>, customers: seq<Customer>, limit: nat)
      requires PaymentsMade(payments, attempts, customers, limit)
      ensures Unique(PaymentId, payments)
    {
    }

    /** The failed ones among the payments, in order. */
    static function FailedOnes(payments: seq<Payment>): (r: seq<Payment>)
      ensures forall p :: p in r ==> p in payments && p.status == PaymentFailed
    {
      if payments == [] then []
      else
        var p := payments[|payments| - 1];
        FailedOnes(payments[..|payments| - 1]) + (if p.status == PaymentFailed then [p] else [])
    }

    /** The history of one customer: so many payments, each later than the one before. */
    method GenerateHistory(customers: seq<Customer>, k: nat, profile: Profile, count: nat, payments: seq<Payment>,
                           attempts: seq<Attempt>,
                           failed: seq<Payment>)
      returns (newPayments: seq<Payment>, newAttempts: seq<Attempt>, newFailed: seq<Payment>)
      requires k < |customers| && CustomersFine(customers)
      requires PaymentsMade(payments, attempts, customers, rng.issued)
      requires profile == PROFILES[k % |PROFILES|]
      modifies rng
      ensures PaymentsMade(newPayments, newAttempts, customers, rng.issued) && old(rng.issued) <= rng.issued
      ensures failed == FailedOnes(payments) ==> newFailed == FailedOnes(newPayments)
      ensures PaymentsFit(payments, customers) ==> PaymentsFit(newPayments, customers)
      ensures TriesMade(payments, attempts) ==> TriesMade(newPayments, newAttempts)
      ensures |newPayments| == |payments| + count
      ensures forall id :: |Having(PaymentCustomer, newPayments, id)|
                        == |Having(PaymentCustomer, payments, id)| + (if id == customers[k].id then count else 0)
    {
      hide PaymentsMade, CustomersFine, Having, PaymentsFit, TriesMade;
      newPayments, newAttempts, newFailed := payments, attempts, failed;
      var time := customers[k].createdAt;
      for i := 0 to count
        invariant customers[k].createdAt <= time
        invariant PaymentsMade(newPayments, newAttempts, customers, rng.issued) && old(rng.issued) <= rng.issued
        invariant failed == FailedOnes(payments) ==> newFailed == FailedOnes(newPayments)
        invariant PaymentsFit(payments, customers) ==> PaymentsFit(newPayments, customers)
        invariant TriesMade(payments, attempts) ==> TriesMade(newPayments, newAttempts)
        invariant |newPayments| == |payments| + i
        invariant forall id :: |Having(PaymentCustomer, newPayments, id)|
                            == |Having(PaymentCustomer, payments, id)| + (if id == customers[k].id then i else 0)
      {
        var gap := rng.RandInt(3600, 86400 * 10);
        time := time + gap;
        var payment;
        payment, newAttempts := GeneratePayment(customers, k, profile, time, newPayments, newAttempts);
        forall id ensures Having(PaymentCustomer, newPayments + [payment], id)
                       == if payment.customerId == id then Having(PaymentCustomer, newPayments, id) + [payment]
                          else Having(PaymentCustomer, newPayments, id) {
          HavingAppend(PaymentCustomer, newPayments, payment, id);
        }
        AppendParts(newPayments, payment);
        if PaymentsFit(newPayments, customers) {
          PaymentsFitAppend(newPayments, customers, k, payment);
        }
        if payment.status == PaymentFailed {
          newFailed := newFailed + [payment];
        }
        newPayments := newPayments + [payment];
      }
    }

    method GeneratePayments(customers: seq<Customer>, profiles: map<Uuid, Profile>)
      returns (payments: seq<Payment>, attempts: seq<Attempt>, failed: seq<Payment>)
      requires CustomersMade(customers, profiles, rng.issued)
      requires |customers| > 0 || config.numPayments <= 0
      modifies rng
      ensures PaymentsMade(payments, attempts, customers, rng.issued) && old(rng.issued) <= rng.issued
      ensures failed == FailedOnes(payments) && PaymentsFit(payments, customers) && TriesMade(payments, attempts)
      ensures |payments| == Count(config.numPayments)
      ensures forall c :: 0 <= c < |customers| ==>
                PaymentCount(payments, customers[c]) == Share(Count(config.numPayments), |customers|, c)
    {
      hide PaymentsMade, Having, Share, PaymentsFit, TriesMade;
      payments, attempts, failed := [], [], [];
      NoPayments(customers, rng.issued);
      NothingToFit(customers);
      var counts := AllocatePayments(|customers|);
      for k := 0 to |customers|
        invariant CustomersMade(customers, profiles, old(rng.issued))
        invariant PaymentsMade(payments, attempts, customers, rng.issued) && old(rng.issued) <= rng.issued
        invariant failed == FailedOnes(payments) && PaymentsFit(payments, customers) && TriesMade(payments, attempts)
        invariant forall c :: 0 <= c < |customers| ==> counts[c] == Share(Count(config.numPayments), |customers|, c)
        invariant |payments| == SharesUpTo(Count(config.numPayments), |customers|, k)
        invariant forall c :: 0 <= c < |customers| ==>
          |Having(PaymentCustomer, payments, customers[c].id)| == if c < k then counts[c] else 0
      {
        var profile := profiles[customers[k].id];
        payments, attempts, failed := GenerateHistory(customers, k, profile, counts[k], payments, attempts, failed);
        forall c | 0 <= c < |customers| && c != k ensures customers[c].id != customers[k].id {
          assert CustomerId(customers[c]) != CustomerId(customers[k]);
        }
      }
      if |customers| > 0 {
        SharesAddUp(Count(config.numPayments), |customers|);
      }
    }

    lemma NoPayments(customers: seq<Customer>, limit: nat)
      ensures PaymentsMade([], [], customers, limit) && FailedOnes([]) == []
      ensures forall id :: Having(PaymentCustomer, [], id) == []
    {
    }

    /** A case for each failed payment whose sampled scenario is about payments. */
    method GeneratePaymentCases(payments: seq<Payment>, subscriptions: seq<Subscription>, failed: seq<Payment>)
      returns (cases: seq<Case>, truths: seq<GroundTruth>)
      requires Sum(config.weights) > 0
      requires forall p :: p in failed ==> p in payments && p.amountMinor >= 0
      requires Unique(PaymentId, failed) && forall p :: p in failed ==> p.status == PaymentFailed
      modifies rng
      ensures CasesFit(cases, failed, [])
      ensures (forall i :: 0 <= i < |config.weights| ==> config.weights[i].outcome != SubscriptionFailure) ==>
                |cases| == |failed|
      ensures CasesMade(cases, truths, payments, subscriptions, rng.issued) && old(rng.issued) <= rng.issued
      ensures |cases| <= |failed| && CasesAbout(cases, failed, [])
    {
      hide CasesMade, CasesAbout, CasesFit, CaseFits, Sum, Rng.Drawn;
      cases, truths := [], [];
      NothingToFit([]);
      ghost var none: seq<Subscription> := [];
      NoCases(payments, subscriptions, rng.issued);
      for i := 0 to |failed|
        invariant CasesMade(cases, truths, payments, subscriptions, rng.issued) && old(rng.issued) <= rng.issued
        invariant |cases| <= i && CasesAbout(cases, failed[..i], []) && CasesFit(cases, failed[..i], [])
        invariant (forall j :: 0 <= j < |config.weights| ==> config.weights[j].outcome != SubscriptionFailure) ==>
                    |cases| == i
      {
        var payment := failed[i];
        assert failed[..i + 1] == failed[..i] + [payment];
        NotBefore(PaymentId, failed, i);
        MoreAbout(cases, failed[..i], none, [payment], none);
        CasesFitMore(cases, failed[..i], none, [payment], none);
        assert none + none == none;
        var scenario := SampleScenario();
        var spec := SpecOf(scenario);
        if spec.targetType == "payment" {
          var id := rng.FreshUuid();
          var case_ := Case(id, Some(payment.id), None, payment.amountMinor, payment.currency, payment.createdAt + 300);
          var truth := GroundTruth(id, "payment", payment.id, scenario, spec.recoverable);
          assert payment in payments;
          var j :| 0 <= j < |payments| && payments[j] == payment;
          assert PaymentId(payments[j]) in Image(PaymentId, payments);
          CaseAdded(cases, truths, payments, subscriptions, case_, truth, rng.issued - 1);
          PaymentCaseAbout(cases, failed[..i], [], payment, case_);
          LastFits(case_, failed[..i + 1], []);
          CasesFitAppend(cases, failed[..i + 1], [], case_);
          cases, truths := cases + [case_], truths + [truth];
        }
      }
      assert failed[..|failed|] == failed;
    }

    lemma NoCases(payments: seq<Payment>, subscriptions: seq<Subscription>, limit: nat)
      ensures CasesMade([], [], payments, subscriptions, limit) && CasesAbout([], [], [])
    {
    }

    /** The same subscriptions, some of them now past due. */
    static predicate SameButStatus(before: seq<Subscription>, after: seq<Subscription>) {
      |before| == |after| && forall i :: 0 <= i < |before| ==> after[i] == before[i].(status := after[i].status)
    }

    /** A case for each subscription that falls past due. */
    method GenerateSubscriptionCases(payments: seq<Payment>, before: seq<Subscription>, paymentCases: seq<Case>,
                                     paymentTruths: seq<GroundTruth>, ghost failed: seq<Payment>)
      returns (subscriptions: seq<Subscription>, cases: seq<Case>, truths: seq<GroundTruth>)
      requires CasesMade(paymentCases, paymentTruths, payments, before, rng.issued)
      requires CasesAbout(paymentCases, failed, []) && Unique(SubscriptionId, before)
      requires forall i :: 0 <= i < |before| ==> before[i].amountMinor >= 0 && before[i].status == Active
      requires CasesFit(paymentCases, failed, [])
      modifies rng
      ensures CasesAbout(cases, failed, before)
      ensures CasesFit(cases, failed, subscriptions) && PastDueHaveCases(cases, subscriptions)
      ensures SameButStatus(before, subscriptions)
      ensures CasesMade(cases, truths, payments, before, rng.issued) && old(rng.issued) <= rng.issued
      ensures paymentCases <= cases && |cases| <= |paymentCases| + |before|
      ensures forall j :: 0 <= j < |before| ==>
                (subscriptions[j].status == PastDue <==> rng.Drawn(old(rng.position) + j, 0, 9999) < 2000)
    {
      hide Rng.Drawn, CasesMade, CasesAbout, CasesFit, CaseFits, PastDueHaveCases;
      NoneHaveCases(paymentCases);
      subscriptions, cases, truths := before, paymentCases, paymentTruths;
      for i := 0 to |before|
        invariant SameButStatus(before, subscriptions)
        invariant CasesMade(cases, truths, payments, before, rng.issued) && old(rng.issued) <= rng.issued
        invariant paymentCases <= cases && |cases| <= |paymentCases| + i
        invariant CasesAbout(cases, failed, before[..i])
        invariant rng.position == old(rng.position) + i
        invariant forall j :: 0 <= j < i ==>
                    (subscriptions[j].status == PastDue <==> rng.Drawn(old(rng.position) + j, 0, 9999) < 2000)
        invariant forall j :: i <= j < |before| ==> subscriptions[j] == before[j]
        invariant CasesFit(cases, failed, subscriptions[..i]) && PastDueHaveCases(cases, subscriptions[..i])
      {
        ghost var done, earlier := subscriptions[..i], cases;
        assert failed + [] == failed;
        var subscription := subscriptions[i];
        assert before[..i + 1] == before[..i] + [before[i]] && failed + [] == failed;
        NotBefore(SubscriptionId, before, i);
        MoreAbout(cases, failed, before[..i], [], [before[i]]);
        var lot := rng.RandInt(0, 9999);
        if lot < 2000 {
          subscriptions := subscriptions[i := subscription.(status := PastDue)];
          var id := rng.FreshUuid();
          var case_ := Case(id, None, Some(subscription.id), subscription.amountMinor, subscription.currency,
                            subscription.createdAt + 30 * 86400 + 600);
          var spec := SpecOf(SubscriptionFailure);
          var truth := GroundTruth(id, "subscription", subscription.id, SubscriptionFailure, spec.recoverable);
          assert SubscriptionId(before[i]) in Image(SubscriptionId, before);
          CaseAdded(cases, truths, payments, before, case_, truth, rng.issued - 1);
          SubscriptionCaseAbout(cases, failed, before[..i], before[i], case_);
          CasesFitMore(cases, failed, done, [], [subscriptions[i]]);
          LastFits(case_, failed, done + [subscriptions[i]]);
          CasesFitAppend(cases, failed, done + [subscriptions[i]], case_);
          HaveCasesLater(cases, done, [case_], subscriptions[i]);
          cases, truths := cases + [case_], truths + [truth];
        } else {
          CasesFitMore(cases, failed, done, [], [subscriptions[i]]);
          HaveCasesLater(cases, done, [], subscriptions[i]);
          assert cases + [] == cases;
        }
        assert subscriptions[..i + 1] == done + [subscriptions[i]];
      }
      assert subscriptions[..|before|] == subscriptions;
      assert before[..|before|] == before;
    }

    lemma NoneHaveCases(cases: seq<Case>)
      ensures PastDueHaveCases(cases, [])
    {
    }

    /** The failed payments are different payments. */
    static lemma {:induction false} FailedAreUnique(payments: seq<Payment>)
      requires Unique(PaymentId, payments)
      ensures Unique(PaymentId, FailedOnes(payments))
    {
      if payments != [] {
        var front, p := payments[..|payments| - 1], payments[|payments| - 1];
        FailedAreUnique(front);
        NotBefore(PaymentId, payments, |payments| - 1);
        forall i | 0 <= i < |FailedOnes(front)| ensures PaymentId(FailedOnes(front)[i]) != p.id {
          assert FailedOnes(front)[i] in front;
        }
        NotInImage(PaymentId, FailedOnes(front), p.id);
        UniqueAppend(PaymentId, FailedOnes(front), p);
      }
    }

    /** Whatever the stream: the dataset is well-formed, has exactly the configured numbers
        of customers and payments, deals the payments out evenly, has at most one case for a
        target, and its ground truth describes its cases one by one. */
    method Generate() returns (ds: SyntheticDataset)
      requires Sum(config.weights) > 0
      requires config.numCustomers > 0 || config.numPayments <= 0
      modifies rng
      ensures WellFormed(ds)
      ensures |ds.observable.customers| == Count(config.numCustomers)
      ensures |ds.observable.payments| == Count(config.numPayments)
      ensures EvenlyDealt(ds)
      ensures InOrder(ds.observable.attempts)
      ensures Unique(CaseTarget, ds.observable.cases) && Realistic(ds, config.startDate)
      ensures config.subscriptionRatioBps <= 0 ==> ds.observable.subscriptions == []
      ensures config.subscriptionRatioBps >= 10000 ==> |ds.observable.subscriptions| == |ds.observable.customers|
      ensures |ds.groundTruth| == |ds.observable.cases|
      ensures forall i :: 0 <= i < |ds.groundTruth| ==> Describes(ds.groundTruth[i], ds.observable.cases[i])
    {
      hide CustomersMade, SubscriptionsMade, PaymentsMade, CasesMade, WellFormed, EvenlyDealt, Share, InOrder;
      hide Labelled, DatedFrom, SubscriptionsFit, PaymentsFit, TriesMade, CasesFit, PastDueHaveCases;
      var customers, profiles := GenerateCustomers();
      ghost var limit := rng.issued;
      var active := GenerateSubscriptions(customers, profiles);
      CustomersLater(customers, profiles, limit, rng.issued);
      limit := rng.issued;
      var payments, attempts, failed := GeneratePayments(customers, profiles);
      AmountsNotNegative(customers, payments, attempts, rng.issued, active, limit);
      limit := rng.issued;
      FailedAreUnique(payments);
      var paymentCases, paymentTruths := GeneratePaymentCases(payments, active, failed);
      var subscriptions, cases, truths :=
          GenerateSubscriptionCases(payments, active, paymentCases, paymentTruths, failed);
      ds := SyntheticDataset(Observable(customers, payments, attempts, subscriptions, cases), truths);
      Assembled(ds, profiles, active, limit, rng.issued);
      Even(ds, Count(config.numPayments));
      SubscriptionsFitLater(active, subscriptions, customers);
      CasesFitAll(cases, payments, failed, subscriptions);
    }

    /** Generating and then validating, as the command line does, always succeeds. */
    method GenerateValidated() returns (ds: SyntheticDataset, isValid: bool)
      requires Sum(config.weights) > 0
      requires config.numCustomers > 0 || config.numPayments <= 0
      modifies rng
      ensures isValid && WellFormed(ds)
    {
      hide WellFormed, EvenlyDealt, Realistic, Sum;
      ds := Generate();
      var errors;
      isValid, errors := Validate(ds);
    }
  }

  /** Any two customers have the same number of payments, give or take one. */
  ghost predicate EvenlyDealt(ds: SyntheticDataset) {
    var o := ds.observable;
    forall c, d :: 0 <= c < |o.customers| && 0 <= d < |o.customers| ==>
      PaymentCount(o.payments, o.customers[c]) <= PaymentCount(o.payments, o.customers[d]) + 1
  }

  function PaymentCount(payments: seq<Payment>, c: Customer): nat {
    |Having(PaymentCustomer, payments, c.id)|
  }

  lemma Even(ds: SyntheticDataset, m: nat)
    requires var o := ds.observable;
             forall c :: 0 <= c < |o.customers| ==>
               PaymentCount(o.payments, o.customers[c]) == Share(m, |o.customers|, c)
    ensures EvenlyDealt(ds)
  {
  }

  lemma CustomersLater(customers: seq<Customer>, profiles: map<Uuid, Profile>, limit: nat, later: nat)
    requires CustomersMade(customers, profiles, limit) && limit <= later
    ensures CustomersMade(customers, profiles, later)
  {
  }

  lemma AmountsNotNegative(customers: seq<Customer>, payments: seq<Payment>, attempts: seq<Attempt>, paymentLimit: nat,
                           subscriptions: seq<Subscription>, subscriptionLimit: nat)
    requires PaymentsMade(payments, attempts, customers, paymentLimit)
    requires SubscriptionsMade(subscriptions, customers, subscriptionLimit)
    ensures forall p :: p in payments ==> p.amountMinor >= 0
    ensures forall i :: 0 <= i < |subscriptions| ==> subscriptions[i].amountMinor >= 0
    ensures Unique(PaymentId, payments) && Unique(SubscriptionId, subscriptions)
  {
  }

  lemma Assembled(ds: SyntheticDataset, profiles: map<Uuid, Profile>, active: seq<Subscription>, limit: nat,
                  caseLimit: nat)
    requires exists l :: CustomersMade(ds.observable.customers, profiles, l)
    requires exists l :: SubscriptionsMade(active, ds.observable.customers, l)
    requires PaymentsMade(ds.observable.payments, ds.observable.attempts, ds.observable.customers, limit)
    requires SyntheticDataGenerator.SameButStatus(active, ds.observable.subscriptions)
    requires CasesMade(ds.observable.cases, ds.groundTruth, ds.observable.payments, active, caseLimit)
    ensures WellFormed(ds)
    ensures Labelled(CustomerExternalId, "cust_syn_", 6, ds.observable.customers)
    ensures Labelled(SubscriptionExternalId, "sub_syn_", 6, ds.observable.subscriptions)
    ensures Labelled(PaymentExternalId, "pay_syn_", 7, ds.observable.payments)
    ensures InOrder(ds.observable.attempts)
    ensures |ds.groundTruth| == |ds.observable.cases|
    ensures forall i :: 0 <= i < |ds.groundTruth| ==> Describes(ds.groundTruth[i], ds.observable.cases[i])
  {
  }
}
