/** The execution layer as functions of its shared state: taking a key and dispatching,
    completing after the provider answered, and reconciling a webhook. */
module ExecutionSpec {
  import opened Identity
  import opened Domain
  import opened StateMachine

  datatype PaymentMode = TestMode | SimulationMode | OtherMode

  datatype ExecutionConfig = ExecutionConfig(
    mode: PaymentMode,
    gatewayVersion: string,
    policyVersion: string,
    maxAttempts: int)

  const DEFAULT_EXECUTION_CONFIG := ExecutionConfig(TestMode, GATEWAY_VERSION, POLICY_VERSION, 2)

  datatype ExecutionRequest = ExecutionRequest(
    proposal: Proposal,
    target: Target,
    result: GatewayResult,
    suppliedKey: Option<string>)

  datatype Record = Record(
    id: nat,
    proposalId: Uuid,
    targetType: string,
    targetId: Uuid,
    customerId: Uuid,
    action: Action,
    amountMinor: int,
    currency: string,
    status: Status,
    attemptNumber: int,
    key: string,
    reference: Option<string>,
    lastError: Option<string>)

  datatype ProviderRequest = ProviderRequest(
    key: string,
    targetType: string,
    targetId: Uuid,
    customerId: Uuid,
    amountMinor: int,
    currency: string,
    action: Action)

  datatype NormalizedStatus =
    | ProviderSuccess
    | ProviderDeclined
    | ProviderValidationError
    | ProviderAuthenticationError
    | ProviderRateLimited
    | ProviderTimeout
    | ProviderNetworkError
    | ProviderUnknown

  /** What awaiting the provider yields: a normalized response, or an exception. */
  datatype ProviderOutcome =
    | Responded(reference: Option<string>, normalized: NormalizedStatus, errorCode: Option<string>)
    | Raised

  datatype TrailEvent = TrailEvent(
    executionId: nat,
    proposalId: Uuid,
    targetType: string,
    targetId: Uuid,
    customerId: Uuid,
    action: Action,
    amountMinor: int,
    currency: string,
    stage: string,
    status: Status,
    attemptNumber: int,
    reference: Option<string>,
    key: string,
    errorCode: Option<string>)

  /** The registry in the insertion order of its dictionary, the keys in flight, what the
      provider was sent, and the shared audit trail. */
  datatype ExecState = ExecState(
    records: seq<Record>,
    inFlight: set<string>,
    requests: seq<ProviderRequest>,
    trail: seq<TrailEvent>)

  const NO_EXECUTIONS := ExecState([], {}, [], [])

  function EventOf(r: Record, stage: string, errorCode: Option<string>): TrailEvent {
    TrailEvent(r.id, r.proposalId, r.targetType, r.targetId, r.customerId, r.action, r.amountMinor, r.currency,
               stage, r.status, r.attemptNumber, r.reference, r.key, errorCode)
  }

  /** The part of a trail that is about one execution. */
  function EventsFor(trail: seq<TrailEvent>, id: nat): seq<TrailEvent> {
    if trail == [] then []
    else
      var e := trail[|trail| - 1];
      EventsFor(trail[..|trail| - 1], id) + (if e.executionId == id then [e] else [])
  }

  // ---------------------------------------------------------------------------
  // Authorization recheck
  // ---------------------------------------------------------------------------

  datatype AuthorizationError =
    | NotApproved
    | NotEligible
    | UnauthorizedReason
    | VersionMismatch
    | IdentityMismatch
    | TargetIdMismatch
    | RequestAmountMismatch
    | AmountNotPositive
    | UnsupportedCurrency
    | ActionNotExecutable
    | AttemptCeilingExceeded
    | ModeProhibited

  function Revalidate(config: ExecutionConfig, proposal: Proposal, target: Target, result: GatewayResult)
    : Option<AuthorizationError>
  {
    var expected := DeriveProposalId(proposal.decisionVersion, proposal.policyVersion, proposal.targetType,
                                     proposal.targetId);
    if result.decision != Approved then Some(NotApproved)
    else if !result.eligible then Some(NotEligible)
    else if result.reason !in {ApprovedForExecutionLayer, IdempotentReplayApproved} then Some(UnauthorizedReason)
    else if proposal.decisionVersion != DECISION_VERSION || proposal.policyVersion != POLICY_VERSION
         || result.gatewayVersion != GATEWAY_VERSION then Some(VersionMismatch)
    else if proposal.proposalId != expected || result.proposalId != expected then Some(IdentityMismatch)
    else if proposal.targetId != target.targetId || result.targetId != target.targetId then Some(TargetIdMismatch)
    else if proposal.amountMinor != target.amountMinor then Some(RequestAmountMismatch)
    else if proposal.amountMinor <= 0 then Some(AmountNotPositive)
    else if proposal.currency != target.currency || proposal.currency != "INR" then Some(UnsupportedCurrency)
    else if proposal.action !in EXECUTABLE_ACTIONS then Some(ActionNotExecutable)
    else if target.attemptCount > config.maxAttempts then Some(AttemptCeilingExceeded)
    else if config.mode !in {TestMode, SimulationMode} then Some(ModeProhibited)
    else None
  }

  // ---------------------------------------------------------------------------
  // Execution up to and after the await
  // ---------------------------------------------------------------------------

  function RequestKey(config: ExecutionConfig, req: ExecutionRequest): string {
    if req.suppliedKey.Some? && req.suppliedKey.value != "" then req.suppliedKey.value
    else DeriveExecutionKey(req.proposal.proposalId, config.gatewayVersion, config.policyVersion,
                           ActionName(req.proposal.action))
  }

  /** The position of the record stored under a key, or the number of records. */
  function Position(records: seq<Record>, key: string): (i: nat)
    ensures i <= |records|
    ensures i < |records| ==> records[i].key == key
    ensures forall j :: 0 <= j < i ==> records[j].key != key
  {
    if records == [] then 0
    else if records[0].key == key then 0
    else 1 + Position(records[1..], key)
  }

  function NewRecord(req: ExecutionRequest, key: string, id: nat, status: Status): Record {
    Record(id, req.proposal.proposalId, req.target.targetType, req.target.targetId, req.target.customerId,
           req.proposal.action, req.target.amountMinor, req.target.currency, status, req.target.attemptCount + 1,
           key, None, None)
  }

  function RequestFor(r: Record): ProviderRequest {
    ProviderRequest(r.key, r.targetType, r.targetId, r.customerId, r.amountMinor, r.currency, r.action)
  }

  /** Storing under a key: a new key goes last, an existing one keeps its place. */
  function Store(records: seq<Record>, r: Record): seq<Record> {
    var i := Position(records, r.key);
    if i < |records| then records[i := r] else records + [r]
  }

  datatype BeginOutcome<R> =
    | Denied(error: AuthorizationError)
    | Existing(record: R)
    | Conflict
    | Held(record: R)
    | Awaiting(record: R)

  /** Recheck, take the key, and either hold the execution back or dispatch it. */
  function Begin(config: ExecutionConfig, st: ExecState, req: ExecutionRequest, id: nat)
    : (ExecState, BeginOutcome<Record>)
  {
    var error := Revalidate(config, req.proposal, req.target, req.result);
    if error.Some? then (st, Denied(error.value)) else TakeKey(st, req, RequestKey(config, req), id)
  }

  function TakeKey(st: ExecState, req: ExecutionRequest, key: string, id: nat): (ExecState, BeginOutcome<Record>) {
    if Position(st.records, key) < |st.records| then (st, Existing(st.records[Position(st.records, key)]))
    else if key in st.inFlight then (st, Conflict)
    else if req.proposal.action == RetryLater then
      var held := NewRecord(req, key, id, Deferred);
      (st.(records := Store(st.records, held), trail := st.trail + [EventOf(held, "DEFERRED", None)]), Held(held))
    else
      var started := NewRecord(req, key, id, ExecutionStarted);
      var sent := started.(status := ProviderRequested);
      (st.(inFlight := st.inFlight + {key},
           requests := st.requests + [RequestFor(sent)],
           trail := st.trail
                    + [EventOf(started, "EXECUTION_STARTED", None), EventOf(sent, "PROVIDER_REQUESTED", None)]),
       Awaiting(sent))
  }

  function StatusFor(outcome: ProviderOutcome): Status {
    if outcome.Raised? then UnknownProviderState
    else
      match outcome.normalized
      case ProviderSuccess => Succeeded
      case ProviderDeclined => Failed
      case ProviderTimeout | ProviderNetworkError | ProviderUnknown => UnknownProviderState
      case ProviderValidationError | ProviderAuthenticationError | ProviderRateLimited => Failed
  }

  function StageFor(status: Status): string {
    match status
    case Succeeded => "PROVIDER_CONFIRMED"
    case UnknownProviderState => "UNKNOWN_PROVIDER_STATE"
    case _ => "FAILED"
  }

  function ErrorFor(outcome: ProviderOutcome): Option<string> {
    if outcome.Raised? then Some("TRANSPORT_EXCEPTION") else outcome.errorCode
  }

  function Answered(r: Record, outcome: ProviderOutcome): Record {
    r.(reference := if outcome.Raised? then None else outcome.reference,
       lastError := ErrorFor(outcome),
       status := StatusFor(outcome))
  }

  /** The provider answered: map the response, store the record and release the key. */
  function Finish(st: ExecState, r: Record, outcome: ProviderOutcome): ExecState {
    var done := Answered(r, outcome);
    st.(records := Store(st.records, done),
        inFlight := st.inFlight - {r.key},
        trail := st.trail + [EventOf(done, StageFor(done.status), ErrorFor(outcome))])
  }

  // ---------------------------------------------------------------------------
  // Webhooks
  // ---------------------------------------------------------------------------

  /** An entity of the payload. `None` stands for a missing or empty entity. An amount
      that is not an integer is `Some(None)`. */
  datatype Entity = Entity(
    id: Option<string>,
    orderId: Option<string>,
    paymentLinkId: Option<string>,
    amount: Option<Option<int>>,
    currency: Option<string>)

  datatype Webhook = Webhook(
    hasInputs: bool,
    signatureValid: bool,
    parsed: bool,
    eventIdHeader: Option<string>,
    payloadId: Option<string>,
    payloadEventId: Option<string>,
    bodyHash: string,
    eventType: string,
    payment: Option<Entity>,
    order: Option<Entity>,
    paymentLink: Option<Entity>,
    genericReference: Option<string>)

  datatype WebhookCode =
    | InvalidSignature
    | MalformedPayload
    | IdempotentReplay
    | MissingProviderReference
    | UnknownExecutionReference
    | AlreadyReconciled
    | WebhookAmountMismatch
    | WebhookCurrencyMismatch
    | IgnoredEventType
    | InvalidStateTransition
    | ReconciledSuccessfully

  datatype Reconciliation = Reconciliation(
    executionId: nat,
    previous: Status,
    reconciled: Status,
    amountRecovered: int,
    reference: Option<string>)

  datatype WebhookReply = WebhookReply(success: bool, code: WebhookCode, result: Option<Reconciliation>)

  /** Python's `or` on optional strings: the first one that is present and not empty. */
  function Or(a: Option<string>, b: Option<string>): Option<string> {
    if a.Some? && a.value != "" then a else b
  }

  function Field(e: Option<Entity>, f: Entity -> Option<string>): Option<string> {
    if e.Some? then f(e.value) else None
  }

  function EventId(w: Webhook): string {
    var id := Or(w.eventIdHeader, Or(w.payloadId, Or(w.payloadEventId, Some(w.bodyHash))));
    if id.Some? then id.value else ""
  }

  function Present(a: Option<string>): set<string> {
    if a.Some? && a.value != "" then {a.value} else {}
  }

  function CandidateReferences(w: Webhook): set<string> {
    Present(Field(w.payment, (e: Entity) => e.id))
    + Present(Or(Field(w.payment, (e: Entity) => e.orderId), Field(w.order, (e: Entity) => e.id)))
    + Present(Or(Field(w.paymentLink, (e: Entity) => e.id), Field(w.payment, (e: Entity) => e.paymentLinkId)))
    + Present(w.genericReference)
  }

  /** The entity whose amount and currency are checked. */
  function CheckedEntity(w: Webhook): Option<Entity> {
    if w.payment.Some? then w.payment else if w.order.Some? then w.order else w.paymentLink
  }

  const CAPTURE_EVENTS: set<string> := {"payment.captured", "order.paid", "payment_link.paid"}

  /** The position of the first record with one of these references, or the number of records. */
  function Matching(records: seq<Record>, refs: set<string>): (i: nat)
    ensures i <= |records|
    ensures i < |records| ==> records[i].reference.Some? && records[i].reference.value in refs
    ensures forall j :: 0 <= j < i ==> !(records[j].reference.Some? && records[j].reference.value in refs)
  {
    if records == [] then 0
    else if records[0].reference.Some? && records[0].reference.value in refs then 0
    else 1 + Matching(records[1..], refs)
  }

  function Refused(code: WebhookCode): WebhookReply {
    WebhookReply(false, code, None)
  }

  predicate AmountDisagrees(e: Option<Entity>, r: Record) {
    e.Some? && e.value.amount.Some? && e.value.amount.value != Some(r.amountMinor)
  }

  predicate CurrencyDisagrees(e: Option<Entity>, r: Record) {
    e.Some? && e.value.currency.Some? && e.value.currency.value != r.currency
  }

  /** What a webhook that found its record answers, and the status it moves the record to. */
  function Reconcile(r: Record, w: Webhook): (WebhookReply, Status) {
    var entity := CheckedEntity(w);
    if r.status == Reconciled && w.eventType in CAPTURE_EVENTS then
      (WebhookReply(true, AlreadyReconciled,
                    Some(Reconciliation(r.id, Reconciled, Reconciled, r.amountMinor, r.reference))), r.status)
    else if AmountDisagrees(entity, r) then (Refused(WebhookAmountMismatch), r.status)
    else if CurrencyDisagrees(entity, r) then (Refused(WebhookCurrencyMismatch), r.status)
    else if w.eventType !in CAPTURE_EVENTS && w.eventType != "payment.failed" then
      (WebhookReply(true, IgnoredEventType, None), r.status)
    else
      var next := if w.eventType in CAPTURE_EVENTS then Reconciled else Failed;
      if !CanTransition(r.status, next) then (Refused(InvalidStateTransition), r.status)
      else
        (WebhookReply(true, ReconciledSuccessfully,
                      Some(Reconciliation(r.id, r.status, next,
                                          if next == Reconciled then r.amountMinor else 0, r.reference))),
         next)
  }

  /** Find the record, reconcile it, and write the move to the registry and the trail. */
  function ApplyWebhook(st: ExecState, refs: set<string>, w: Webhook): (ExecState, WebhookReply) {
    var i := Matching(st.records, refs);
    if i == |st.records| then (st, Refused(UnknownExecutionReference))
    else
      var (reply, next) := Reconcile(st.records[i], w);
      if reply.code != ReconciledSuccessfully then (st, reply)
      else
        var moved := st.records[i].(status := next);
        (st.(records := st.records[i := moved],
             trail := st.trail + [EventOf(moved, MoveStage(next), None)]),
         reply)
  }

  function MoveStage(next: Status): string {
    if next == Reconciled then "RECONCILED" else "FAILED"
  }

  /** One webhook delivery to a handler that has processed `processed`. */
  function HandleWebhook(st: ExecState, processed: set<string>, w: Webhook): (ExecState, set<string>, WebhookReply) {
    if !w.hasInputs || !w.signatureValid then (st, processed, Refused(InvalidSignature))
    else if !w.parsed then (st, processed, Refused(MalformedPayload))
    else if EventId(w) in processed then (st, processed, WebhookReply(true, IdempotentReplay, None))
    else if CandidateReferences(w) == {} then (st, processed + {EventId(w)}, Refused(MissingProviderReference))
    else
      var (after, reply) := ApplyWebhook(st, CandidateReferences(w), w);
      (after, processed + {EventId(w)}, reply)
  }
}
