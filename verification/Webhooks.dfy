/** What a webhook can do: which events reconcile which records, when a delivery changes
    anything in a run, and that a reconciled event never does again. */
module Webhooks {
  import opened Domain
  import opened StateMachine
  import opened ExecutionSpec
  import opened ExecutionRuns

  predicate AmountIs(e: Entity, r: Record) {
    e.amount == None || e.amount == Some(Some(r.amountMinor))
  }

  predicate CurrencyIs(e: Entity, r: Record) {
    e.currency == None || e.currency == Some(r.currency)
  }

  /** The amount of the payment in the event, if there is one, or else of the order, or else
      of the payment link, is absent or the record's. */
  predicate AmountFits(w: Webhook, r: Record) {
    && (w.payment.Some? ==> AmountIs(w.payment.value, r))
    && (w.payment.None? && w.order.Some? ==> AmountIs(w.order.value, r))
    && (w.payment.None? && w.order.None? && w.paymentLink.Some? ==> AmountIs(w.paymentLink.value, r))
  }

  predicate CurrencyFits(w: Webhook, r: Record) {
    && (w.payment.Some? ==> CurrencyIs(w.payment.value, r))
    && (w.payment.None? && w.order.Some? ==> CurrencyIs(w.order.value, r))
    && (w.payment.None? && w.order.None? && w.paymentLink.Some? ==> CurrencyIs(w.paymentLink.value, r))
  }

  /** The money in the event does not contradict the record. An event may leave it out. */
  predicate MoneyFits(w: Webhook, r: Record) {
    AmountFits(w, r) && CurrencyFits(w, r)
  }

  lemma DisagreementExactly(w: Webhook, r: Record)
    ensures AmountDisagrees(CheckedEntity(w), r) <==> !AmountFits(w, r)
    ensures CurrencyDisagrees(CheckedEntity(w), r) <==> !CurrencyFits(w, r)
  {
    if CheckedEntity(w).Some? {
      var e := CheckedEntity(w).value;
      assert e.amount.Some? && e.amount.value == Some(r.amountMinor) ==> e.amount == Some(Some(r.amountMinor));
      assert e.currency.Some? && e.currency.value == r.currency ==> e.currency == Some(r.currency);
    }
  }

  /** An event moves a record exactly when it reports a capture or a failure, its money fits,
      and the provider's answer was a success or left the outcome open. It then reports the
      record's whole amount as recovered, or nothing. */
  lemma ReconcilesExactly(r: Record, w: Webhook)
    requires r.status in STORED_STATUSES
    ensures var (reply, next) := Reconcile(r, w);
            && (reply.code == ReconciledSuccessfully <==>
                  && w.eventType in {"payment.captured", "order.paid", "payment_link.paid", "payment.failed"}
                  && MoneyFits(w, r) && r.status in {Succeeded, UnknownProviderState})
            && (reply.code == ReconciledSuccessfully ==>
                  && reply.success && next == (if w.eventType == "payment.failed" then Failed else Reconciled)
                  && reply.result == Some(Reconciliation(r.id, r.status, next,
                                                         if next == Reconciled then r.amountMinor else 0, r.reference)))
            && (reply.code != ReconciledSuccessfully ==> next == r.status)
            && (reply.code == AlreadyReconciled <==> r.status == Reconciled && w.eventType in CAPTURE_EVENTS)
  {
    DisagreementExactly(w, r);
    hide CheckedEntity, AmountDisagrees, CurrencyDisagrees, AmountFits, CurrencyFits;
  }

  const EVENTS_HANDLED: set<string> := {"payment.captured", "order.paid", "payment_link.paid", "payment.failed"}

  /** Which reply a stored record gives an event: the money is checked before the kind of
      event, and both before the record's status, except that a reconciled record answers
      every capture at once. */
  lemma RepliesExactly(r: Record, w: Webhook)
    requires r.status in STORED_STATUSES
    ensures var reply := Reconcile(r, w).0;
            var again := r.status == Reconciled && w.eventType in EVENTS_HANDLED && w.eventType != "payment.failed";
            && (reply.code == AlreadyReconciled <==> again)
            && (reply.code == WebhookAmountMismatch <==> !again && !AmountFits(w, r))
            && (reply.code == WebhookCurrencyMismatch <==> !again && AmountFits(w, r) && !CurrencyFits(w, r))
            && (reply.code == IgnoredEventType <==> MoneyFits(w, r) && w.eventType !in EVENTS_HANDLED)
            && (reply.code == InvalidStateTransition <==>
                  && !again && MoneyFits(w, r) && w.eventType in EVENTS_HANDLED
                  && r.status !in {Succeeded, UnknownProviderState})
            && (reply.success <==> reply.code in {AlreadyReconciled, IgnoredEventType, ReconciledSuccessfully})
            && (reply.result.Some? <==> reply.code in {AlreadyReconciled, ReconciledSuccessfully})
            && (again ==>
                  reply.result.value == Reconciliation(r.id, Reconciled, Reconciled, r.amountMinor, r.reference))
  {
    DisagreementExactly(w, r);
    hide CheckedEntity, AmountDisagrees, CurrencyDisagrees, AmountFits, CurrencyFits;
  }

  /** The first of these that is present and not empty identifies an event: the header, the
      payload's id, its event id, the hash of the body. */
  lemma EventIdExactly(w: Webhook)
    ensures !Absent(w.eventIdHeader) ==> EventId(w) == w.eventIdHeader.value
    ensures Absent(w.eventIdHeader) && !Absent(w.payloadId) ==> EventId(w) == w.payloadId.value
    ensures Absent(w.eventIdHeader) && Absent(w.payloadId) && !Absent(w.payloadEventId) ==>
              EventId(w) == w.payloadEventId.value
    ensures Absent(w.eventIdHeader) && Absent(w.payloadId) && Absent(w.payloadEventId) ==> EventId(w) == w.bodyHash
  {
  }

  /** What a handler answers, from the signature to the record, and what it remembers. */
  lemma HandlerAnswersExactly(st: ExecState, processed: set<string>, w: Webhook)
    ensures var (after, seen, reply) := HandleWebhook(st, processed, w);
            var i := Matching(st.records, CandidateReferences(w));
            && seen == (if Authentic(w) then processed + {EventId(w)} else processed)
            && (!w.hasInputs || !w.signatureValid <==> reply == WebhookReply(false, InvalidSignature, None))
            && (w.hasInputs && w.signatureValid && !w.parsed <==> reply == WebhookReply(false, MalformedPayload, None))
            && (Authentic(w) && EventId(w) in processed <==> reply == WebhookReply(true, IdempotentReplay, None))
            && (Authentic(w) && EventId(w) !in processed && CandidateReferences(w) == {} <==>
                  reply == WebhookReply(false, MissingProviderReference, None))
            && (&& Authentic(w) && EventId(w) !in processed && CandidateReferences(w) != {} && i == |st.records| <==>
                  reply == WebhookReply(false, UnknownExecutionReference, None))
            && (Authentic(w) && EventId(w) !in processed && i < |st.records| ==> reply == Reconcile(st.records[i], w).0)
  {
    hide EventId, CandidateReferences, Reconcile;
    if Matching(st.records, CandidateReferences(w)) < |st.records| {
      RecordAnswers(st.records[Matching(st.records, CandidateReferences(w))], w);
    }
  }

  lemma RecordAnswers(r: Record, w: Webhook)
    ensures Reconcile(r, w).0.code in {AlreadyReconciled, WebhookAmountMismatch, WebhookCurrencyMismatch,
                                       IgnoredEventType, InvalidStateTransition, ReconciledSuccessfully}
  {
    hide CheckedEntity, AmountDisagrees, CurrencyDisagrees;
  }

  predicate Authentic(w: Webhook) {
    w.hasInputs && w.signatureValid && w.parsed
  }

  predicate Names(id: Option<string>, ref: string) {
    id == Some(ref) && ref != ""
  }

  predicate Absent(id: Option<string>) {
    id == None || id == Some("")
  }

  function IdOf(e: Option<Entity>): Option<string> {
    if e.Some? then e.value.id else None
  }

  /** A reference is looked for when the event names it as payment id, as order id of the
      payment or else of the order, as id of the payment link or else the one in the
      payment, or as generic reference. */
  lemma CandidatesExactly(w: Webhook, ref: string)
    ensures var orderId := if w.payment.Some? then w.payment.value.orderId else None;
            var linkInPayment := if w.payment.Some? then w.payment.value.paymentLinkId else None;
            ref in CandidateReferences(w) <==>
              || Names(IdOf(w.payment), ref)
              || Names(orderId, ref) || (Absent(orderId) && Names(IdOf(w.order), ref))
              || Names(IdOf(w.paymentLink), ref) || (Absent(IdOf(w.paymentLink)) && Names(linkInPayment, ref))
              || Names(w.genericReference, ref)
  {
  }

  /** Moving a record's status does not change which record a reference finds. */
  lemma {:induction false} MatchingStays(records: seq<Record>, refs: set<string>, k: nat, status: Status)
    requires k < |records|
    ensures Matching(records[k := records[k].(status := status)], refs) == Matching(records, refs)
  {
    var moved := records[k := records[k].(status := status)];
    if k > 0 {
      assert moved[1..] == records[1..][k - 1 := records[k].(status := status)];
      MatchingStays(records[1..], refs, k - 1, status);
    } else {
      assert moved[1..] == records[1..];
    }
  }

  /** A record that was just moved by an event is not moved by that event again. */
  lemma MovedOnce(r: Record, w: Webhook)
    requires Reconcile(r, w).0.code == ReconciledSuccessfully
    ensures Reconcile(r.(status := Reconcile(r, w).1), w).0.code != ReconciledSuccessfully
  {
  }

  lemma ApplyingTwice(st: ExecState, refs: set<string>, w: Webhook)
    ensures var once := ApplyWebhook(st, refs, w).0;
            ApplyWebhook(once, refs, w).0 == once
  {
    hide Reconcile, Matching;
    var i := Matching(st.records, refs);
    if i < |st.records| && Reconcile(st.records[i], w).0.code == ReconciledSuccessfully {
      MatchingStays(st.records, refs, i, Reconcile(st.records[i], w).1);
      MovedOnce(st.records[i], w);
    }
  }

  /** Delivering an event again right after it was handled, before anything else happens,
      changes no record and adds nothing to the trail, whichever handler it reaches. */
  lemma {:induction false} RedeliveryChangesNothing(st: ExecState, processed: set<string>, elsewhere: set<string>,
                                                    w: Webhook)
    requires EventId(w) !in processed
    ensures var once := HandleWebhook(st, processed, w).0;
            HandleWebhook(once, elsewhere, w).0 == once
  {
    hide ApplyWebhook, CandidateReferences, EventId;
    ApplyingTwice(st, CandidateReferences(w), w);
  }

  /** The same handler answers the redelivery of an authentic event as a replay, even when
      the first delivery found no record: the event is consumed before the lookup. */
  lemma RedeliveryIsReplay(st: ExecState, processed: set<string>, later: ExecState, w: Webhook)
    requires w.hasInputs && w.signatureValid && w.parsed
    ensures var seen := HandleWebhook(st, processed, w).1;
            HandleWebhook(later, seen, w) == (later, seen, WebhookReply(true, IdempotentReplay, None))
  {
  }

  /** Timeouts, network errors, ambiguous answers and exceptions leave the outcome open, and
      nothing else does: they are never taken for a failure, nor for a success. */
  lemma AmbiguityStaysOpen(outcome: ProviderOutcome)
    ensures StatusFor(outcome) == UnknownProviderState
            <==> outcome.Raised? || outcome.normalized in {ProviderTimeout, ProviderNetworkError, ProviderUnknown}
    ensures StatusFor(outcome) == Succeeded <==> outcome.Responded? && outcome.normalized == ProviderSuccess
    ensures StatusFor(outcome) in {Succeeded, Failed, UnknownProviderState}
    ensures CanTransition(ProviderRequested, StatusFor(outcome))
  {
  }

  // ---------------------------------------------------------------------------
  // Deliveries in a run
  // ---------------------------------------------------------------------------

  function Deliver(config: ExecutionConfig, world: World, handler: nat, w: Webhook): World {
    StepWorld(config, world, DeliverWebhook(handler, w))
  }

  /** The first stored record that the event names can still be moved by it. */
  predicate CanMove(records: seq<Record>, w: Webhook) {
    var i := Matching(records, CandidateReferences(w));
    && i < |records|
    && w.eventType in {"payment.captured", "order.paid", "payment_link.paid", "payment.failed"}
    && MoneyFits(w, records[i]) && records[i].status in {Succeeded, UnknownProviderState}
  }

  /** In every run, a delivery changes the execution state if and only if the event is
      authentic and new to its handler and can move the first record it names. */
  lemma {:induction false} DeliveryChangesExactly(config: ExecutionConfig, events: seq<ExecEvent>, handler: nat,
                                                  w: Webhook)
    ensures var world := RunWorld(config, events);
            Deliver(config, world, handler, w).exec != world.exec
            <==> Authentic(w) && EventId(w) !in HandledBy(world, handler) && CanMove(world.exec.records, w)
  {
    hide RunWorld, EventId, CandidateReferences, CanMove, ApplyWebhook;
    SoundAlways(config, events);
    var world := RunWorld(config, events);
    MovesExactly(world, w);
    NothingNamed(world.exec.records, w);
    hide Sound;
  }

  lemma {:induction false} MovesExactly(world: World, w: Webhook)
    requires Sound(world)
    ensures ApplyWebhook(world.exec, CandidateReferences(w), w).0 != world.exec <==> CanMove(world.exec.records, w)
  {
    hide CandidateReferences, MoneyFits, RequestsFit, TrailFits, MoneyBalances;
    var records := world.exec.records;
    var i := Matching(records, CandidateReferences(w));
    if i < |records| {
      StoredIsInLedger(world, i);
      hide KeysHeld, StatusesFit, Matching;
      ReconcilesExactly(records[i], w);
      hide Reconcile;
    }
  }

  lemma NothingNamed(records: seq<Record>, w: Webhook)
    ensures CandidateReferences(w) == {} ==> !CanMove(records, w)
  {
    hide CandidateReferences;
  }

  /** In every run, an event whose payment states another amount or currency than the first
      record it names moves nothing, whatever else it says. */
  lemma {:induction false} WrongMoneyMovesNothing(config: ExecutionConfig, events: seq<ExecEvent>, handler: nat,
                                                  w: Webhook)
    requires var records := RunWorld(config, events).exec.records;
             var i := Matching(records, CandidateReferences(w));
             && i < |records| && w.payment.Some?
             && (|| (w.payment.value.amount.Some? && w.payment.value.amount.value != Some(records[i].amountMinor))
                 || (w.payment.value.currency.Some? && w.payment.value.currency.value != records[i].currency))
    ensures Deliver(config, RunWorld(config, events), handler, w).exec == RunWorld(config, events).exec
  {
    hide RunWorld, CandidateReferences, EventId, StepWorld;
    DeliveryChangesExactly(config, events, handler, w);
  }

  // ---------------------------------------------------------------------------
  // Redelivery after success
  // ---------------------------------------------------------------------------

  /** The first record with one of these references has reached a terminal status. */
  predicate Closed(records: seq<Record>, refs: set<string>) {
    var i := Matching(records, refs);
    i < |records| && records[i].status in {Failed, Reconciled}
  }

  lemma {:induction false} MatchingAppend(records: seq<Record>, refs: set<string>, r: Record)
    requires Matching(records, refs) < |records|
    ensures Matching(records + [r], refs) == Matching(records, refs)
  {
    if Matching(records, refs) > 0 {
      assert (records + [r])[1..] == records[1..] + [r];
      MatchingAppend(records[1..], refs, r);
    }
  }

  /** Records keep their place, their reference and a terminal status. */
  lemma {:induction false} StepKeepsClosed(config: ExecutionConfig, world: World, e: ExecEvent, refs: set<string>)
    requires Sound(world) && Closed(world.exec.records, refs)
    ensures Closed(StepWorld(config, world, e).exec.records, refs)
  {
    var c := StepKeepsSound(config, world, e);
    hide Sound, StepWorld, Closed, EventOf, RequestFor, IsNew, Recovered, StoredUnder;
    match c
    case HeldBack(r) => AddingKeepsClosed(world.exec.records, refs, r);
    case Settled(r, _, _) => AddingKeepsClosed(world.exec.records, refs, r);
    case Moved(k, r, _) => MovingKeepsClosed(world.exec.records, refs, k, r);
    case _ =>
  }

  lemma AddingKeepsClosed(records: seq<Record>, refs: set<string>, r: Record)
    requires Closed(records, refs)
    ensures Closed(records + [r], refs)
  {
    MatchingAppend(records, refs, r);
    hide Matching;
  }

  lemma MovingKeepsClosed(records: seq<Record>, refs: set<string>, k: nat, r: Record)
    requires Closed(records, refs) && k < |records| && r == records[k].(status := r.status)
    requires CanTransition(records[k].status, r.status)
    ensures Closed(records[k := r], refs)
  {
    MatchingStays(records, refs, k, r.status);
    hide Matching;
  }

  lemma {:induction false} StaysClosed(config: ExecutionConfig, earlier: seq<ExecEvent>, later: seq<ExecEvent>,
                                       refs: set<string>)
    requires Closed(RunWorld(config, earlier).exec.records, refs)
    ensures Closed(RunWorld(config, earlier + later).exec.records, refs)
  {
    hide Closed, StepWorld, Sound;
    if later == [] {
      assert earlier + later == earlier;
    } else {
      var sofar := earlier + later[..|later| - 1];
      StaysClosed(config, earlier, later[..|later| - 1], refs);
      ExecutionRuns.RunSplits(config, earlier, later);
      SoundAlways(config, sofar);
      StepKeepsClosed(config, RunWorld(config, sofar), later[|later| - 1], refs);
    }
  }

  lemma SuccessCloses(st: ExecState, refs: set<string>, w: Webhook)
    requires ApplyWebhook(st, refs, w).1.code == ReconciledSuccessfully
    ensures Closed(ApplyWebhook(st, refs, w).0.records, refs)
  {
    hide Matching;
    var i := Matching(st.records, refs);
    MatchingStays(st.records, refs, i, Reconcile(st.records[i], w).1);
  }

  /** Once a delivery reconciled a record, delivering the event again, at any later point of
      any continuation and to any handler, changes nothing in the execution layer. */
  lemma {:induction false} ReconciledOnceForAll(config: ExecutionConfig, earlier: seq<ExecEvent>, later: seq<ExecEvent>,
                                                handler: nat, elsewhere: nat, w: Webhook)
    requires var world := RunWorld(config, earlier);
             HandleWebhook(world.exec, HandledBy(world, handler), w).2.code == ReconciledSuccessfully
    ensures var world := RunWorld(config, earlier + [DeliverWebhook(handler, w)] + later);
            Deliver(config, world, elsewhere, w).exec == world.exec
  {
    hide RunWorld, EventId, CandidateReferences, ApplyWebhook, Closed;
    var refs, first := CandidateReferences(w), earlier + [DeliverWebhook(handler, w)];
    var world := RunWorld(config, earlier);
    DeliveredRun(config, earlier, handler, w);
    SuccessCloses(world.exec, refs, w);
    assert Closed(RunWorld(config, first).exec.records, refs);
    StaysClosed(config, first, later, refs);
    DeliveryChangesExactly(config, first + later, elsewhere, w);
    ClosedCannotMove(RunWorld(config, first + later).exec.records, w);
  }

  lemma ClosedCannotMove(records: seq<Record>, w: Webhook)
    requires Closed(records, CandidateReferences(w))
    ensures !CanMove(records, w)
  {
  }

  lemma {:induction false} DeliveredRun(config: ExecutionConfig, earlier: seq<ExecEvent>, handler: nat, w: Webhook)
    ensures RunWorld(config, earlier + [DeliverWebhook(handler, w)])
         == AfterWebhook(RunWorld(config, earlier), handler, w)
  {
    hide AfterWebhook;
    assert (earlier + [DeliverWebhook(handler, w)])[..|earlier|] == earlier;
  }

  // ---------------------------------------------------------------------------
  // Redelivery after a failed lookup
  // ---------------------------------------------------------------------------

  /** Without a success the promise does not extend: an event that arrived before its record
      was stored finds nothing, and the same event reconciles the record at another handler. */
  lemma {:induction false} EarlyEventReconcilesLater(config: ExecutionConfig, req: ExecutionRequest, w: Webhook,
                                                     ref: string)
    requires Revalidate(config, req.proposal, req.target, req.result).None? && req.proposal.action != RetryLater
    requires Authentic(w) && w.eventType == "payment.captured"
    requires w.payment.None? && w.order.None? && w.paymentLink.None?
    requires ref in CandidateReferences(w)
    ensures var started := RunWorld(config, [BeginExecution(req)]);
            var refused := Deliver(config, started, 0, w);
            var answered := StepWorld(config, refused, ProviderAnswers(0, Responded(Some(ref), ProviderSuccess, None)));
            var reconciled := Deliver(config, answered, 1, w);
            && refused.exec == started.exec
            && |refused.replies| == 1 && refused.replies[0].code == UnknownExecutionReference
            && |reconciled.replies| == 2 && reconciled.replies[1].code == ReconciledSuccessfully
            && reconciled.exec != answered.exec
  {
    StartedAlone(config, req);
    hide RunWorld, CandidateReferences, EventId, EventOf, StoredUnder;
  }

  lemma {:induction false} StartedAlone(config: ExecutionConfig, req: ExecutionRequest)
    requires Revalidate(config, req.proposal, req.target, req.result).None? && req.proposal.action != RetryLater
    ensures var started := RunWorld(config, [BeginExecution(req)]);
            && started.exec.records == [] && |started.ledger| == 1 && started.suspended == {0}
            && started.handled == map[] && started.replies == []
            && started.ledger[0].amountMinor == req.target.amountMinor
  {
    hide Revalidate, RequestKey, EventOf, RequestFor;
    TakeKeyShape(NO_EXECUTIONS, req, RequestKey(config, req), 0);
    hide TakeKey;
    assert RunWorld(config, [BeginExecution(req)]) == AfterBegin(config, EMPTY_WORLD, req) by {
      hide AfterBegin;
      assert [BeginExecution(req)][..0] == [];
      assert RunWorld(config, []) == EMPTY_WORLD;
    }
  }
}
