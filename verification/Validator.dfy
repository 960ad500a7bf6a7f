/** The dataset validator: loops that fill sets and dictionaries and collect errors, against
    a predicate that just says what a well-formed dataset is. */
module Validator {
  import opened Identity
  import opened Dataset
  import opened Collections
  import opened Sorting

  // ---------------------------------------------------------------------------
  // What a well-formed dataset is
  // ---------------------------------------------------------------------------

  ghost predicate CustomersFine(customers: seq<Customer>) {
    Unique(CustomerId, customers) && Unique(CustomerExternalId, customers)
  }

  /** A thing of this amount, created at this time, belongs to an existing customer. */
  ghost predicate BelongsTo(customers: seq<Customer>, customerId: Uuid, createdAt: int) {
    && customerId in Image(CustomerId, customers)
    && forall i :: 0 <= i < |customers| && customers[i].id == customerId ==> customers[i].createdAt <= createdAt
  }

  ghost predicate SubscriptionsFine(subscriptions: seq<Subscription>, customers: seq<Customer>) {
    && Unique(SubscriptionId, subscriptions) && Unique(SubscriptionExternalId, subscriptions)
    && forall i :: 0 <= i < |subscriptions| ==>
         && BelongsTo(customers, subscriptions[i].customerId, subscriptions[i].createdAt)
         && subscriptions[i].amountMinor >= 0
  }

  ghost predicate PaymentsFine(payments: seq<Payment>, customers: seq<Customer>) {
    && Unique(PaymentId, payments) && Unique(PaymentExternalId, payments)
    && forall i :: 0 <= i < |payments| ==>
         BelongsTo(customers, payments[i].customerId, payments[i].createdAt) && payments[i].amountMinor >= 0
  }

  function Numbers(attempts: seq<Attempt>, payment: Uuid): (r: seq<int>) {
    var own := Having(AttemptPayment, attempts, payment);
    seq(|own|, i requires 0 <= i < |own| => own[i].number)
  }

  /** The attempts of a payment are numbered 1, 2, .., n, in any order. */
  predicate WellNumbered(attempts: seq<Attempt>, payment: Uuid) {
    var numbers := Numbers(attempts, payment);
    multiset(numbers) == multiset(OneTo(|numbers|))
  }

  ghost predicate NumberedFromOne(attempts: seq<Attempt>) {
    forall i :: 0 <= i < |attempts| ==> WellNumbered(attempts, attempts[i].paymentId)
  }

  ghost predicate PaidBefore(payments: seq<Payment>, a: Attempt) {
    && a.paymentId in Image(PaymentId, payments)
    && forall j :: 0 <= j < |payments| && payments[j].id == a.paymentId ==> payments[j].createdAt <= a.attemptedAt
  }

  ghost predicate AttemptsFine(attempts: seq<Attempt>, payments: seq<Payment>) {
    && Unique(AttemptId, attempts)
    && (forall i :: 0 <= i < |attempts| ==> PaidBefore(payments, attempts[i]))
    && NumberedFromOne(attempts)
  }

  ghost predicate CaseFine(c: Case, payments: seq<Payment>, subscriptions: seq<Subscription>) {
    && c.amountAtRiskMinor >= 0
    && (|| (c.paymentId.Some? && c.subscriptionId.None? && c.paymentId.value in Image(PaymentId, payments))
        || (c.paymentId.None? && c.subscriptionId.Some?
            && c.subscriptionId.value in Image(SubscriptionId, subscriptions)))
  }

  ghost predicate CasesFine(cases: seq<Case>, payments: seq<Payment>, subscriptions: seq<Subscription>) {
    Unique(CaseId, cases) && forall i :: 0 <= i < |cases| ==> CaseFine(cases[i], payments, subscriptions)
  }

  ghost predicate WellFormed(ds: SyntheticDataset) {
    var o := ds.observable;
    && CustomersFine(o.customers)
    && SubscriptionsFine(o.subscriptions, o.customers)
    && PaymentsFine(o.payments, o.customers)
    && AttemptsFine(o.attempts, o.payments)
    && CasesFine(o.cases, o.payments, o.subscriptions)
    && Image(TruthCase, ds.groundTruth) == Image(CaseId, o.cases)
  }

  // ---------------------------------------------------------------------------
  // The validator
  // ---------------------------------------------------------------------------

  datatype Problem =
    | DuplicateId
    | DuplicateExternalId
    | UnknownCustomer
    | NegativeAmount
    | CreatedBeforeCustomer
    | UnknownPayment
    | NonPositiveNumber
    | AttemptedBeforePayment
    | IrregularNumbers
    | NotOneTarget
    | UnknownSubscription

  datatype Finding = Finding(problem: Problem, id: Uuid) | TruthMismatch

  function ProblemIf(condition: bool, problem: Problem, id: Uuid): (r: seq<Finding>)
    ensures r == [] <==> !condition
  {
    if condition then [Finding(problem, id)] else []
  }

  /** What is wrong between a subscription or payment and its customer. */
  function OwnerProblems(id: Uuid, customerId: Uuid, amount: int, createdAt: int, customerIds: set<Uuid>,
                         created: map<Uuid, int>)
    : (r: seq<Finding>)
    ensures r == [] <==> Joined(customerIds, created, customerId, createdAt) && amount >= 0
  {
    ProblemIf(customerId !in customerIds, UnknownCustomer, id)
    + ProblemIf(amount < 0, NegativeAmount, id)
    + ProblemIf(customerId in created && createdAt < created[customerId], CreatedBeforeCustomer, id)
  }

  method CheckCustomers(customers: seq<Customer>)
    returns (errors: seq<Finding>, ids: set<Uuid>, created: map<Uuid, int>)
    ensures errors == [] <==> CustomersFine(customers)
    ensures ids == Image(CustomerId, customers) && created == Dictionary(CustomerId, CustomerCreated, customers)
  {
    hide Dictionary;
    DictionaryEmpty(CustomerId, CustomerCreated);
    errors, ids, created := [], {}, map[];
    var externalIds := {};
    for i := 0 to |customers|
      invariant ids == Image(CustomerId, customers[..i]) && externalIds == Image(CustomerExternalId, customers[..i])
      invariant created == Dictionary(CustomerId, CustomerCreated, customers[..i])
      invariant errors == [] <==> CustomersFine(customers[..i])
    {
      hide Image, Unique, ProblemIf;
      var c := customers[i];
      assert customers[..i + 1] == customers[..i] + [c];
      ImageAppend(CustomerId, customers[..i], c);
      ImageAppend(CustomerExternalId, customers[..i], c);
      UniqueAppend(CustomerId, customers[..i], c);
      UniqueAppend(CustomerExternalId, customers[..i], c);
      DictionaryAppend(CustomerId, CustomerCreated, customers[..i], c);
      errors := errors + ProblemIf(c.id in ids, DuplicateId, c.id)
          + ProblemIf(c.externalId in externalIds, DuplicateExternalId, c.id);
      ids, externalIds, created := ids + {c.id}, externalIds + {c.externalId}, created[c.id := c.createdAt];
    }
    assert customers[..|customers|] == customers;
  }

  /** Looking a customer up in the set and the dictionary that the first loop left behind. */
  predicate Joined(ids: set<Uuid>, created: map<Uuid, int>, customerId: Uuid, createdAt: int) {
    customerId in ids && !(customerId in created && createdAt < created[customerId])
  }

  lemma {:induction false} JoinedIsBelonging(customers: seq<Customer>, customerId: Uuid, createdAt: int)
    requires CustomersFine(customers)
    ensures Joined(Image(CustomerId, customers), Dictionary(CustomerId, CustomerCreated, customers),
                   customerId, createdAt)
            <==> BelongsTo(customers, customerId, createdAt)
  {
    DictionaryHolds(CustomerId, CustomerCreated, customers);
    if customerId in Image(CustomerId, customers) {
      var k :| 0 <= k < |customers| && CustomerId(customers[k]) == customerId;
      assert customers[k] in customers;
      forall i | 0 <= i < |customers| && customers[i].id == customerId ensures i == k {
        assert CustomerId(customers[i]) == CustomerId(customers[k]);
      }
    }
  }

  ghost predicate SubscriptionsJoin(subscriptions: seq<Subscription>, ids: set<Uuid>, created: map<Uuid, int>) {
    && Unique(SubscriptionId, subscriptions) && Unique(SubscriptionExternalId, subscriptions)
    && forall i :: 0 <= i < |subscriptions| ==>
         && Joined(ids, created, subscriptions[i].customerId, subscriptions[i].createdAt)
         && subscriptions[i].amountMinor >= 0
  }

  method CheckSubscriptions(subscriptions: seq<Subscription>, customerIds: set<Uuid>, created: map<Uuid, int>)
    returns (errors: seq<Finding>, ids: set<Uuid>)
    ensures errors == [] <==> SubscriptionsJoin(subscriptions, customerIds, created)
    ensures ids == Image(SubscriptionId, subscriptions)
  {
    hide Image, Unique, Joined, OwnerProblems, ProblemIf;
    NothingJoined(customerIds, created);
    errors, ids := [], {};
    var externalIds := {};
    for i := 0 to |subscriptions|
      invariant ids == Image(SubscriptionId, subscriptions[..i])
      invariant externalIds == Image(SubscriptionExternalId, subscriptions[..i])
      invariant errors == [] <==> SubscriptionsJoin(subscriptions[..i], customerIds, created)
    {
      var s := subscriptions[i];
      assert subscriptions[..i + 1] == subscriptions[..i] + [s];
      ImageAppend(SubscriptionId, subscriptions[..i], s);
      ImageAppend(SubscriptionExternalId, subscriptions[..i], s);
      UniqueAppend(SubscriptionId, subscriptions[..i], s);
      UniqueAppend(SubscriptionExternalId, subscriptions[..i], s);
      errors := errors
        + ProblemIf(s.id in ids, DuplicateId, s.id)
        + ProblemIf(s.externalId in externalIds, DuplicateExternalId, s.id)
        + OwnerProblems(s.id, s.customerId, s.amountMinor, s.createdAt, customerIds, created);
      ids, externalIds := ids + {s.id}, externalIds + {s.externalId};
    }
    assert subscriptions[..|subscriptions|] == subscriptions;
  }

  lemma NothingJoined(ids: set<Uuid>, created: map<Uuid, int>)
    ensures SubscriptionsJoin([], ids, created)
    ensures Image(SubscriptionId, []) == {} == Image(PaymentId, [])
    ensures Image(SubscriptionExternalId, []) == {} == Image(PaymentExternalId, [])
    ensures PaymentsJoin([], ids, created)
  {
  }

  ghost predicate PaymentsJoin(payments: seq<Payment>, ids: set<Uuid>, created: map<Uuid, int>) {
    && Unique(PaymentId, payments) && Unique(PaymentExternalId, payments)
    && forall i :: 0 <= i < |payments| ==>
         Joined(ids, created, payments[i].customerId, payments[i].createdAt) && payments[i].amountMinor >= 0
  }

  method CheckPayments(payments: seq<Payment>, customerIds: set<Uuid>, created: map<Uuid, int>)
    returns (errors: seq<Finding>, ids: set<Uuid>, made: map<Uuid, int>)
    ensures errors == [] <==> PaymentsJoin(payments, customerIds, created)
    ensures ids == Image(PaymentId, payments) && made == Dictionary(PaymentId, PaymentMade, payments)
  {
    hide Dictionary, Image, Unique, Joined, OwnerProblems, ProblemIf;
    NothingJoined(customerIds, created);
    DictionaryEmpty(PaymentId, PaymentMade);
    errors, ids, made := [], {}, map[];
    var externalIds := {};
    for i := 0 to |payments|
      invariant ids == Image(PaymentId, payments[..i]) && externalIds == Image(PaymentExternalId, payments[..i])
      invariant made == Dictionary(PaymentId, PaymentMade, payments[..i])
      invariant errors == [] <==> PaymentsJoin(payments[..i], customerIds, created)
    {
      var p := payments[i];
      assert payments[..i + 1] == payments[..i] + [p];
      ImageAppend(PaymentId, payments[..i], p);
      ImageAppend(PaymentExternalId, payments[..i], p);
      UniqueAppend(PaymentId, payments[..i], p);
      UniqueAppend(PaymentExternalId, payments[..i], p);
      DictionaryAppend(PaymentId, PaymentMade, payments[..i], p);
      errors := errors
        + ProblemIf(p.id in ids, DuplicateId, p.id)
        + ProblemIf(p.externalId in externalIds, DuplicateExternalId, p.id)
        + OwnerProblems(p.id, p.customerId, p.amountMinor, p.createdAt, customerIds, created);
      ids, externalIds, made := ids + {p.id}, externalIds + {p.externalId}, made[p.id := p.createdAt];
    }
    assert payments[..|payments|] == payments;
  }

  ghost predicate AttemptsJoin(attempts: seq<Attempt>, ids: set<Uuid>, made: map<Uuid, int>) {
    && Unique(AttemptId, attempts)
    && forall i :: 0 <= i < |attempts| ==>
         Joined(ids, made, attempts[i].paymentId, attempts[i].attemptedAt) && attempts[i].number > 0
  }

  method CheckAttempts(attempts: seq<Attempt>, paymentIds: set<Uuid>, made: map<Uuid, int>)
    returns (errors: seq<Finding>)
    ensures errors == [] <==> AttemptsJoin(attempts, paymentIds, made)
  {
    errors := [];
    var ids := {};
    for i := 0 to |attempts|
      invariant ids == Image(AttemptId, attempts[..i])
      invariant errors == [] <==> AttemptsJoin(attempts[..i], paymentIds, made)
    {
      var a := attempts[i];
      assert attempts[..i + 1] == attempts[..i] + [a];
      ImageAppend(AttemptId, attempts[..i], a);
      UniqueAppend(AttemptId, attempts[..i], a);
      errors := errors
        + ProblemIf(a.id in ids, DuplicateId, a.id)
        + ProblemIf(a.paymentId !in paymentIds, UnknownPayment, a.id)
        + ProblemIf(a.number <= 0, NonPositiveNumber, a.id)
        + ProblemIf(a.paymentId in made && a.attemptedAt < made[a.paymentId], AttemptedBeforePayment, a.id);
      ids := ids + {a.id};
    }
    assert attempts[..|attempts|] == attempts;
  }

  /** Groups the attempts by payment and compares each group's sorted numbers with 1, .., n. */
  method CheckNumbering(attempts: seq<Attempt>) returns (errors: seq<Finding>)
    ensures errors == [] <==> NumberedFromOne(attempts)
  {
    hide SortedBy, NumberedFromOne, Image, Having;
    errors := [];
    var groups, order := Group(AttemptPayment, attempts);
    for i := 0 to |order|
      invariant errors == [] <==>
        forall j :: 0 <= j < i ==> WellNumbered(attempts, order[j])
    {
      var own := groups[order[i]];
      var numbers := seq(|own|, k requires 0 <= k < |own| => own[k].number);
      SortedIsOneToN(numbers);
      assert numbers == Numbers(attempts, order[i]);
      errors := errors + ProblemIf(SortedBy(Same, numbers) != OneTo(|numbers|), IrregularNumbers, order[i]);
    }
    EveryPaymentListed(attempts, groups, order);
  }

  lemma EveryPaymentListed(attempts: seq<Attempt>, groups: map<Uuid, seq<Attempt>>, order: seq<Uuid>)
    requires GroupsBy(AttemptPayment, groups, attempts) && forall k :: k in order <==> k in groups
    ensures (forall j :: 0 <= j < |order| ==> WellNumbered(attempts, order[j])) <==> NumberedFromOne(attempts)
  {
    hide WellNumbered, Having;
    forall i | 0 <= i < |attempts| ensures attempts[i].paymentId in order {
      assert AttemptPayment(attempts[i]) in Image(AttemptPayment, attempts);
    }
    forall j | 0 <= j < |order| ensures exists i :: 0 <= i < |attempts| && attempts[i].paymentId == order[j] {
      assert order[j] in Image(AttemptPayment, attempts);
      var i :| 0 <= i < |attempts| && AttemptPayment(attempts[i]) == order[j];
    }
  }

  method CheckCases(cases: seq<Case>, paymentIds: set<Uuid>, subscriptionIds: set<Uuid>)
    returns (errors: seq<Finding>, ids: set<Uuid>)
    ensures errors == []
            <==> Unique(CaseId, cases) && forall i :: 0 <= i < |cases| ==>
                   CaseJoins(cases[i], paymentIds, subscriptionIds)
    ensures ids == Image(CaseId, cases)
  {
    errors, ids := [], {};
    for i := 0 to |cases|
      invariant ids == Image(CaseId, cases[..i])
      invariant errors == [] <==>
        Unique(CaseId, cases[..i]) && forall j :: 0 <= j < i ==> CaseJoins(cases[j], paymentIds, subscriptionIds)
    {
      var c := cases[i];
      assert cases[..i + 1] == cases[..i] + [c];
      ImageAppend(CaseId, cases[..i], c);
      UniqueAppend(CaseId, cases[..i], c);
      var hasPayment, hasSubscription := c.paymentId.Some?, c.subscriptionId.Some?;
      errors := errors
        + ProblemIf(c.id in ids, DuplicateId, c.id)
        + ProblemIf(hasPayment == hasSubscription, NotOneTarget, c.id)
        + ProblemIf(hasPayment && c.paymentId.value !in paymentIds, UnknownPayment, c.id)
        + ProblemIf(hasSubscription && c.subscriptionId.value !in subscriptionIds, UnknownSubscription, c.id)
        + ProblemIf(c.amountAtRiskMinor < 0, NegativeAmount, c.id);
      ids := ids + {c.id};
    }
    assert cases[..|cases|] == cases;
  }

  predicate CaseJoins(c: Case, paymentIds: set<Uuid>, subscriptionIds: set<Uuid>) {
    && c.paymentId.Some? != c.subscriptionId.Some?
    && (c.paymentId.Some? ==> c.paymentId.value in paymentIds)
    && (c.subscriptionId.Some? ==> c.subscriptionId.value in subscriptionIds)
    && c.amountAtRiskMinor >= 0
  }

  /** Valid means well-formed, and there is an error exactly when it is not. */
  method Validate(ds: SyntheticDataset) returns (isValid: bool, errors: seq<Finding>)
    ensures isValid <==> WellFormed(ds)
    ensures isValid <==> errors == []
  {
    hide CustomersFine, SubscriptionsJoin, PaymentsJoin, AttemptsJoin, NumberedFromOne, Dictionary;
    var o := ds.observable;
    var customerErrors, customerIds, created := CheckCustomers(o.customers);
    var subscriptionErrors, subscriptionIds := CheckSubscriptions(o.subscriptions, customerIds, created);
    var paymentErrors, paymentIds, made := CheckPayments(o.payments, customerIds, created);
    var attemptErrors := CheckAttempts(o.attempts, paymentIds, made);
    var numberErrors := CheckNumbering(o.attempts);
    var caseErrors, caseIds := CheckCases(o.cases, paymentIds, subscriptionIds);
    var truthIds := {};
    for i := 0 to |ds.groundTruth|
      invariant truthIds == Image(TruthCase, ds.groundTruth[..i])
    {
      assert ds.groundTruth[..i + 1] == ds.groundTruth[..i] + [ds.groundTruth[i]];
      ImageAppend(TruthCase, ds.groundTruth[..i], ds.groundTruth[i]);
      truthIds := truthIds + {ds.groundTruth[i].caseId};
    }
    assert ds.groundTruth[..|ds.groundTruth|] == ds.groundTruth;
    errors := customerErrors + subscriptionErrors + paymentErrors + attemptErrors + numberErrors + caseErrors;
    if truthIds != caseIds {
      errors := errors + [TruthMismatch];
    }
    isValid := errors == [];
    JoinsAreReferences(ds);
  }

  lemma JoinsAreReferences(ds: SyntheticDataset)
    ensures var o := ds.observable;
            var ids, created := Image(CustomerId, o.customers), Dictionary(CustomerId, CustomerCreated, o.customers);
            var paymentIds, made := Image(PaymentId, o.payments), Dictionary(PaymentId, PaymentMade, o.payments);
            WellFormed(ds) <==>
              && CustomersFine(o.customers)
              && SubscriptionsJoin(o.subscriptions, ids, created)
              && PaymentsJoin(o.payments, ids, created)
              && AttemptsJoin(o.attempts, paymentIds, made)
              && NumberedFromOne(o.attempts)
              && Unique(CaseId, o.cases)
              && (forall i :: 0 <= i < |o.cases| ==>
                    CaseJoins(o.cases[i], paymentIds, Image(SubscriptionId, o.subscriptions)))
              && Image(TruthCase, ds.groundTruth) == Image(CaseId, o.cases)
  {
    hide Unique, Dictionary, NumberedFromOne;
    var o := ds.observable;
    if CustomersFine(o.customers) {
      SubscriptionsJoinIsFine(o.subscriptions, o.customers);
      PaymentsJoinIsFine(o.payments, o.customers);
      if PaymentsFine(o.payments, o.customers) {
        AttemptsJoinIsFine(o.attempts, o.payments);
      }
    }
  }

  lemma {:induction false} SubscriptionsJoinIsFine(subscriptions: seq<Subscription>, customers: seq<Customer>)
    requires CustomersFine(customers)
    ensures SubscriptionsJoin(subscriptions, Image(CustomerId, customers),
                              Dictionary(CustomerId, CustomerCreated, customers))
            <==> SubscriptionsFine(subscriptions, customers)
  {
    hide Unique, Dictionary, Joined, BelongsTo;
    forall i | 0 <= i < |subscriptions|
      ensures Joined(Image(CustomerId, customers), Dictionary(CustomerId, CustomerCreated, customers),
                     subscriptions[i].customerId, subscriptions[i].createdAt)
              <==> BelongsTo(customers, subscriptions[i].customerId, subscriptions[i].createdAt)
    {
      JoinedIsBelonging(customers, subscriptions[i].customerId, subscriptions[i].createdAt);
    }
  }

  lemma {:induction false} PaymentsJoinIsFine(payments: seq<Payment>, customers: seq<Customer>)
    requires CustomersFine(customers)
    ensures PaymentsJoin(payments, Image(CustomerId, customers), Dictionary(CustomerId, CustomerCreated, customers))
            <==> PaymentsFine(payments, customers)
  {
    hide Unique, Dictionary, Joined, BelongsTo;
    forall i | 0 <= i < |payments|
      ensures Joined(Image(CustomerId, customers), Dictionary(CustomerId, CustomerCreated, customers),
                     payments[i].customerId, payments[i].createdAt)
              <==> BelongsTo(customers, payments[i].customerId, payments[i].createdAt)
    {
      JoinedIsBelonging(customers, payments[i].customerId, payments[i].createdAt);
    }
  }

  /** A number below one is caught twice: by its own check and by the numbering check. */
  lemma NumberingMakesPositive(attempts: seq<Attempt>, i: nat)
    requires NumberedFromOne(attempts) && i < |attempts|
    ensures attempts[i].number > 0
  {
    var payment := attempts[i].paymentId;
    var numbers := Numbers(attempts, payment);
    var k := HavingContains(attempts, i);
    assert numbers[k] == attempts[i].number;
    assert numbers[k] in multiset(numbers);
    assert numbers[k] in OneTo(|numbers|);
  }

  lemma {:induction false} HavingContains(attempts: seq<Attempt>, i: nat) returns (k: nat)
    requires i < |attempts|
    ensures var own := Having(AttemptPayment, attempts, attempts[i].paymentId);
            k < |own| && own[k] == attempts[i]
  {
    var n := |attempts| - 1;
    if i == n {
      k := |Having(AttemptPayment, attempts, attempts[i].paymentId)| - 1;
    } else {
      k := HavingContains(attempts[..n], i);
    }
  }

  lemma {:induction false} AttemptsJoinIsFine(attempts: seq<Attempt>, payments: seq<Payment>)
    requires Unique(PaymentId, payments)
    ensures (&& AttemptsJoin(attempts, Image(PaymentId, payments), Dictionary(PaymentId, PaymentMade, payments))
             && NumberedFromOne(attempts))
            <==> AttemptsFine(attempts, payments)
  {
    DictionaryHolds(PaymentId, PaymentMade, payments);
    forall i | 0 <= i < |attempts|
      ensures Joined(Image(PaymentId, payments), Dictionary(PaymentId, PaymentMade, payments),
                     attempts[i].paymentId, attempts[i].attemptedAt)
              <==> PaidBefore(payments, attempts[i])
      ensures NumberedFromOne(attempts) ==> attempts[i].number > 0
    {
      JoinedIsPaidBefore(payments, attempts[i]);
      if NumberedFromOne(attempts) {
        NumberingMakesPositive(attempts, i);
      }
    }
  }

  lemma {:induction false} JoinedIsPaidBefore(payments: seq<Payment>, a: Attempt)
    requires Unique(PaymentId, payments)
    ensures Joined(Image(PaymentId, payments), Dictionary(PaymentId, PaymentMade, payments), a.paymentId, a.attemptedAt)
            <==> PaidBefore(payments, a)
  {
    DictionaryHolds(PaymentId, PaymentMade, payments);
    if a.paymentId in Image(PaymentId, payments) {
      var k :| 0 <= k < |payments| && PaymentId(payments[k]) == a.paymentId;
      assert payments[k] in payments;
      forall i | 0 <= i < |payments| && payments[i].id == a.paymentId ensures i == k {
        assert PaymentId(payments[i]) == PaymentId(payments[k]);
      }
    }
  }
}
