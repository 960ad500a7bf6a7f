/** The entities of a transaction dataset and the hidden ground truth beside it. Times are
    integer seconds. */
module Dataset {
  import opened Identity
  import opened Domain

  datatype PaymentStatus = PaymentCreated | PaymentAuthorized | PaymentCaptured | PaymentFailed | PaymentRefunded

  datatype SubscriptionStatus = Active | PastDue | Cancelled | Halted

  datatype Customer = Customer(id: Uuid, externalId: string, createdAt: int)

  datatype Subscription = Subscription(
    id: Uuid,
    externalId: string,
    customerId: Uuid,
    amountMinor: int,
    currency: string,
    status: SubscriptionStatus,
    createdAt: int)

  datatype Payment = Payment(
    id: Uuid,
    externalId: string,
    customerId: Uuid,
    amountMinor: int,
    currency: string,
    status: PaymentStatus,
    createdAt: int)

  datatype Attempt = Attempt(id: Uuid, paymentId: Uuid, number: int, failureCode: Option<string>, attemptedAt: int)

  datatype Case = Case(
    id: Uuid,
    paymentId: Option<Uuid>,
    subscriptionId: Option<Uuid>,
    amountAtRiskMinor: int,
    currency: string,
    detectedAt: int)

  datatype Scenario =
    | HighProbabilityRecoverable
    | LowProbabilityRecoverable
    | ClearlyNonRecoverable
    | NewCustomerDrop
    | RepeatedFailure
    | TemporaryFailureAfterSuccess
    | SubscriptionFailure
    | HighValueFailure

  datatype GroundTruth = GroundTruth(
    caseId: Uuid,
    targetType: string,
    targetId: Uuid,
    scenario: Scenario,
    recoverable: bool)

  datatype Observable = Observable(
    customers: seq<Customer>,
    payments: seq<Payment>,
    attempts: seq<Attempt>,
    subscriptions: seq<Subscription>,
    cases: seq<Case>)

  datatype SyntheticDataset = SyntheticDataset(observable: Observable, groundTruth: seq<GroundTruth>)

  // The fields by which loops and comprehensions index.

  function CustomerId(c: Customer): Uuid { c.id }
  function CustomerExternalId(c: Customer): string { c.externalId }
  function CustomerCreated(c: Customer): int { c.createdAt }
  function SubscriptionId(s: Subscription): Uuid { s.id }
  function SubscriptionExternalId(s: Subscription): string { s.externalId }
  function PaymentId(p: Payment): Uuid { p.id }
  function PaymentExternalId(p: Payment): string { p.externalId }
  function PaymentMade(p: Payment): int { p.createdAt }
  function AttemptId(a: Attempt): Uuid { a.id }
  function AttemptPayment(a: Attempt): Uuid { a.paymentId }
  function AttemptNumber(a: Attempt): int { a.number }
  function CaseId(c: Case): Uuid { c.id }
  function TruthCase(t: GroundTruth): Uuid { t.caseId }
  function PaymentCustomer(p: Payment): Uuid { p.customerId }
}
