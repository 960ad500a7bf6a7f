/** What an execution keeps of its request and of the provider's answer, in every run: the
    fields of its record, of the request that was sent and of its events in the trail, and
    the reference by which a later webhook finds it. */
module Answers {
  import opened Identity
  import opened Domain
  import opened StateMachine
  import opened ExecutionSpec
  import opened ExecutionRuns
  import opened Webhooks

  // ---------------------------------------------------------------------------
  // Beginning
  // ---------------------------------------------------------------------------

  /** The record of a request: whose recovery it is, for how much, and under which key. */
  predicate RecordsRequest(config: ExecutionConfig, r: Record, req: ExecutionRequest) {
    var p, t := req.proposal, req.target;
    && r.proposalId == p.proposalId && r.action == p.action
    && r.targetType == t.targetType && r.targetId == t.targetId && r.customerId == t.customerId
    && r.amountMinor == t.amountMinor && r.currency == t.currency && r.attemptNumber == t.attemptCount + 1
    && r.reference == None && r.lastError == None
    && r.key == (if req.suppliedKey.Some? && req.suppliedKey.value != "" then req.suppliedKey.value
                 else DeriveExecutionKey(p.proposalId, config.gatewayVersion, config.policyVersion,
                     ActionName(p.action)))
  }

  predicate SendsRequest(q: ProviderRequest, r: Record) {
    && q.key == r.key && q.targetType == r.targetType && q.targetId == r.targetId && q.customerId == r.customerId
    && q.amountMinor == r.amountMinor && q.currency == r.currency && q.action == r.action
  }

  /** A beginning that gets the key records every field of its request, and sends them to
      the provider unless the action is held back. One that does not changes nothing. */
  lemma {:induction false} BeginTells(config: ExecutionConfig, w: World, req: ExecutionRequest)
    ensures var after, n := AfterBegin(config, w, req), |w.ledger|;
            || after == w
            || (&& after.ledger[..n] == w.ledger && |after.ledger| == n + 1
                && var r := after.ledger[n];
                   && r.id == n && RecordsRequest(config, r, req)
                   && if req.proposal.action == RetryLater then
                        && r.status == Deferred && after.exec.requests == w.exec.requests
                        && r in after.exec.records && r.key !in after.exec.inFlight
                      else
                        && r.status == ProviderRequested && n in after.suspended && r.key in after.exec.inFlight
                        && |after.exec.requests| == |w.exec.requests| + 1 && w.exec.requests <= after.exec.requests
                        && SendsRequest(after.exec.requests[|w.exec.requests|], r))
  {
    hide Revalidate, DeriveExecutionKey, EventOf;
    TakeKeyShape(w.exec, req, RequestKey(config, req), |w.ledger|);
    hide TakeKey;
  }

  // ---------------------------------------------------------------------------
  // The answer
  // ---------------------------------------------------------------------------

  /** The execution is over and holds this reference and this error. */
  predicate Holds(w: World, id: nat, reference: Option<string>, error: Option<string>) {
    && id < |w.ledger| && id !in w.suspended && id !in w.lost
    && w.ledger[id].reference == reference && w.ledger[id].lastError == error
  }

  lemma {:induction false} AnswerArrives(w: World, id: nat, outcome: ProviderOutcome)
    requires Sound(w) && id in w.suspended
    ensures var after := AfterFinish(w, id, outcome);
            && Holds(after, id, if outcome.Responded? then outcome.reference else None,
                     if outcome.Responded? then outcome.errorCode else Some("TRANSPORT_EXCEPTION"))
            && after.exec.records == w.exec.records + [after.ledger[id]]
            && SameExecution(w.ledger[id], after.ledger[id])
            && (after.ledger[id].status == UnknownProviderState <==>
                  outcome.Raised? || outcome.normalized in {ProviderTimeout, ProviderNetworkError, ProviderUnknown})
            && (after.ledger[id].status == Succeeded <==> outcome.Responded? && outcome.normalized == ProviderSuccess)
  {
    FinishStores(w, id, outcome);
    AmbiguityStaysOpen(outcome);
    SettledWasWaiting(w, id);
    hide Store, StatusFor;
  }

  /** Whatever the provider answers, success, decline, timeout or ambiguity: the record that
      is stored holds the reference and the error of that answer. An exception leaves no
      reference and the error "TRANSPORT_EXCEPTION". */
  lemma {:induction false} AnswerIsKept(config: ExecutionConfig, events: seq<ExecEvent>, id: nat,
                                        outcome: ProviderOutcome)
    requires id in RunWorld(config, events).suspended
    ensures var w, after := RunWorld(config, events), RunWorld(config, events + [ProviderAnswers(id, outcome)]);
            && Holds(after, id, if outcome.Responded? then outcome.reference else None,
                     if outcome.Responded? then outcome.errorCode else Some("TRANSPORT_EXCEPTION"))
            && after.exec.records == w.exec.records + [after.ledger[id]]
            && (after.ledger[id].status == UnknownProviderState <==>
                  outcome.Raised? || outcome.normalized in {ProviderTimeout, ProviderNetworkError, ProviderUnknown})
            && (after.ledger[id].status == Succeeded <==> outcome.Responded? && outcome.normalized == ProviderSuccess)
  {
    hide Sound, Holds;
    SoundAlways(config, events);
    AnsweredRun(config, events, id, outcome);
    hide RunWorld;
    AnswerArrives(RunWorld(config, events), id, outcome);
    hide AfterFinish;
  }

  lemma {:induction false} AnsweredRun(config: ExecutionConfig, events: seq<ExecEvent>, id: nat,
                                       outcome: ProviderOutcome)
    ensures RunWorld(config, events + [ProviderAnswers(id, outcome)])
            == AfterFinish(RunWorld(config, events), id, outcome)
  {
    hide AfterFinish;
    assert (events + [ProviderAnswers(id, outcome)])[..|events|] == events;
  }

  lemma {:induction false} StepHolds(config: ExecutionConfig, w: World, e: ExecEvent, id: nat,
                                     reference: Option<string>, error: Option<string>)
    requires Sound(w) && Holds(w, id, reference, error)
    ensures Holds(StepWorld(config, w, e), id, reference, error)
  {
    var c := StepKeepsSound(config, w, e);
    ChangeRewrites(w, StepWorld(config, w, e), c);
    ChangeKeepsAnswers(w, StepWorld(config, w, e), c);
    hide Sound, StepWorld, Applies, Rewrites;
  }

  /** No later step takes the reference or the error away. */
  lemma {:induction false} AnswerStays(config: ExecutionConfig, earlier: seq<ExecEvent>, later: seq<ExecEvent>, id: nat,
                                       reference: Option<string>, error: Option<string>)
    requires Holds(RunWorld(config, earlier), id, reference, error)
    ensures Holds(RunWorld(config, earlier + later), id, reference, error)
  {
    hide Holds, StepWorld, Sound;
    if later == [] {
      assert earlier + later == earlier;
    } else {
      var sofar := earlier + later[..|later| - 1];
      AnswerStays(config, earlier, later[..|later| - 1], id, reference, error);
      ExecutionRuns.RunSplits(config, earlier, later);
      SoundAlways(config, sofar);
      StepHolds(config, RunWorld(config, sofar), later[|later| - 1], id, reference, error);
    }
  }

  // ---------------------------------------------------------------------------
  // Reconciling an open outcome
  // ---------------------------------------------------------------------------

  /** The event names this execution's reference and no reference of another stored record. */
  predicate NamesOnly(w: World, id: nat, webhook: Webhook)
    requires id < |w.ledger|
  {
    && w.ledger[id].reference.Some? && w.ledger[id].reference.value in CandidateReferences(webhook)
    && forall k :: 0 <= k < |w.exec.records| && w.exec.records[k].id != id && w.exec.records[k].reference.Some? ==>
         w.exec.records[k].reference.value !in CandidateReferences(webhook)
  }

  lemma {:induction false} FoundByReference(w: World, id: nat, webhook: Webhook)
    requires Sound(w) && id < |w.ledger| && id !in w.suspended && id !in w.lost && NamesOnly(w, id, webhook)
    ensures var k := Matching(w.exec.records, CandidateReferences(webhook));
            k < |w.exec.records| && w.exec.records[k] == w.ledger[id]
  {
    hide CandidateReferences, StatusesFit, RequestsFit, TrailFits, MoneyBalances;
    var records := w.exec.records;
    assert StoredUnder(records, w.ledger[id].key);
    var p := Position(records, w.ledger[id].key);
    assert w.ledger[records[p].id] == records[p] && records[p].id == id;
    var k := Matching(records, CandidateReferences(webhook));
    hide Matching, Position;
  }

  /** An execution whose outcome is open, or a success, is reconciled by any authentic
      capture event, new to its handler, that names its reference and fits its money: the
      whole amount is reported, and the record is RECONCILED. */
  lemma {:induction false} CaptureReconciles(config: ExecutionConfig, events: seq<ExecEvent>, id: nat, handler: nat,
                                             webhook: Webhook)
    requires var w := RunWorld(config, events);
             && id < |w.ledger| && id !in w.suspended && id !in w.lost && NamesOnly(w, id, webhook)
             && w.ledger[id].status in {UnknownProviderState, Succeeded}
             && Authentic(webhook) && EventId(webhook) !in HandledBy(w, handler) && MoneyFits(webhook, w.ledger[id])
             && webhook.eventType in {"payment.captured", "order.paid", "payment_link.paid"}
    ensures var w := RunWorld(config, events);
            var after := Deliver(config, w, handler, webhook);
            && after.ledger[id] == w.ledger[id].(status := Reconciled)
            && Recovered(after.replies) == Recovered(w.replies) + w.ledger[id].amountMinor
            && after.ledger[id] in after.exec.records
  {
    hide RunWorld, CandidateReferences, EventId, MoneyFits, NamesOnly, Sound, Matching, AfterWebhook, Recovered;
    SoundAlways(config, events);
    var w := RunWorld(config, events);
    FoundByReference(w, id, webhook);
    DeliveryReconciles(w, id, handler, webhook);
  }

  lemma {:induction false} DeliveryReconciles(w: World, id: nat, handler: nat, webhook: Webhook)
    requires Sound(w) && id < |w.ledger|
    requires var k := Matching(w.exec.records, CandidateReferences(webhook));
             k < |w.exec.records| && w.exec.records[k] == w.ledger[id]
    requires w.ledger[id].status in {UnknownProviderState, Succeeded}
    requires Authentic(webhook) && EventId(webhook) !in HandledBy(w, handler) && MoneyFits(webhook, w.ledger[id])
    requires webhook.eventType in {"payment.captured", "order.paid", "payment_link.paid"}
    ensures var after := AfterWebhook(w, handler, webhook);
            && after.ledger[id] == w.ledger[id].(status := Reconciled)
            && Recovered(after.replies) == Recovered(w.replies) + w.ledger[id].amountMinor
            && after.ledger[id] in after.exec.records
  {
    hide MoneyFits, EventId, StatusesFit, RequestsFit, TrailFits, MoneyBalances;
    var k := Matching(w.exec.records, CandidateReferences(webhook));
    NothingMatchesNothing(w.exec.records, webhook);
    ReconcilesExactly(w.exec.records[k], webhook);
    var reply := HandleWebhook(w.exec, HandledBy(w, handler), webhook).2;
    RecoveredAppend(w.replies, reply);
    hide Reconcile, CandidateReferences, Matching, Recovered, EventOf;
    var after := AfterWebhook(w, handler, webhook);
    assert after.exec.records[k] == w.ledger[id].(status := Reconciled);
  }

  lemma NothingMatchesNothing(records: seq<Record>, webhook: Webhook)
    ensures Matching(records, CandidateReferences(webhook)) < |records| ==> CandidateReferences(webhook) != {}
  {
    hide CandidateReferences;
  }

  /** So an execution that the provider answered ambiguously, but with a reference, can
      always be reconciled: as long as its outcome is still open, a fitting capture event
      that names this reference reconciles it. */
  lemma {:induction false} AmbiguousIsReconciled(config: ExecutionConfig, earlier: seq<ExecEvent>,
                                                 later: seq<ExecEvent>,
                                                 id: nat, ref: string, error: Option<string>, handler: nat,
                                                 webhook: Webhook)
    requires id in RunWorld(config, earlier).suspended
    requires var outcome := Responded(Some(ref), ProviderUnknown, error);
             var w := RunWorld(config, earlier + [ProviderAnswers(id, outcome)] + later);
             && id < |w.ledger| && w.ledger[id].status == UnknownProviderState
             && ref in CandidateReferences(webhook)
             && (forall k :: 0 <= k < |w.exec.records| && w.exec.records[k].id != id
                             && w.exec.records[k].reference.Some? ==>
                   w.exec.records[k].reference.value !in CandidateReferences(webhook))
             && Authentic(webhook) && EventId(webhook) !in HandledBy(w, handler) && MoneyFits(webhook, w.ledger[id])
             && webhook.eventType in {"payment.captured", "order.paid", "payment_link.paid"}
    ensures var outcome := Responded(Some(ref), ProviderUnknown, error);
            var w := RunWorld(config, earlier + [ProviderAnswers(id, outcome)] + later);
            var after := Deliver(config, w, handler, webhook);
            && after.ledger[id] == w.ledger[id].(status := Reconciled)
            && Recovered(after.replies) == Recovered(w.replies) + w.ledger[id].amountMinor
  {
    hide RunWorld, CandidateReferences, EventId, MoneyFits, Authentic, StepWorld;
    var outcome := Responded(Some(ref), ProviderUnknown, error);
    AnswerIsKept(config, earlier, id, outcome);
    AnswerStays(config, earlier + [ProviderAnswers(id, outcome)], later, id, Some(ref), error);
    CaptureReconciles(config, earlier + [ProviderAnswers(id, outcome)] + later, id, handler, webhook);
  }

  // ---------------------------------------------------------------------------
  // The trail, field by field
  // ---------------------------------------------------------------------------

  predicate BeforeAnswer(status: Status) {
    status in {Deferred, ExecutionStarted, ProviderRequested}
  }

  /** An event tells the execution it is about, and the reference once there is an answer. */
  predicate TellsOf(e: TrailEvent, r: Record) {
    && e.proposalId == r.proposalId && e.targetType == r.targetType && e.targetId == r.targetId
    && e.customerId == r.customerId && e.action == r.action && e.amountMinor == r.amountMinor
    && e.currency == r.currency && e.attemptNumber == r.attemptNumber && e.key == r.key
    && StageNames(e.stage, e.status)
    && e.reference == (if BeforeAnswer(e.status) then None else r.reference)
    && (e.errorCode == None || (!BeforeAnswer(e.status) && e.errorCode == r.lastError))
  }

  predicate EventTells(w: World, e: TrailEvent) {
    && e.executionId < |w.ledger| && TellsOf(e, w.ledger[e.executionId])
    && (BeforeAnswer(e.status) || !Open(w, e.executionId))
  }

  ghost predicate TrailTells(w: World) {
    forall i :: 0 <= i < |w.exec.trail| ==> EventTells(w, w.exec.trail[i])
  }

  /** An execution that is not open any more keeps reference and error; none changes otherwise. */
  predicate AnswersStay(w: World, after: World) {
    && |w.ledger| <= |after.ledger|
    && forall i :: 0 <= i < |w.ledger| ==>
         && SameExecution(w.ledger[i], after.ledger[i])
         && (Open(after, i) ==> Open(w, i))
         && (Open(w, i) || (after.ledger[i].reference == w.ledger[i].reference
                            && after.ledger[i].lastError == w.ledger[i].lastError))
  }

  lemma OldEventTells(w: World, after: World, e: TrailEvent)
    requires EventTells(w, e) && AnswersStay(w, after)
    ensures EventTells(after, e)
  {
    hide Open;
    assert SameExecution(w.ledger[e.executionId], after.ledger[e.executionId]);
  }

  lemma OldEventsTell(w: World, after: World, added: seq<TrailEvent>)
    requires TrailTells(w) && AnswersStay(w, after) && after.exec.trail == w.exec.trail + added
    requires forall i :: 0 <= i < |added| ==> EventTells(after, added[i])
    ensures TrailTells(after)
  {
    hide EventTells, AnswersStay;
    forall i | 0 <= i < |after.exec.trail| ensures EventTells(after, after.exec.trail[i]) {
      if i < |w.exec.trail| {
        assert EventTells(w, w.exec.trail[i]);
        OldEventTells(w, after, w.exec.trail[i]);
      } else {
        assert after.exec.trail[i] == added[i - |w.exec.trail|];
      }
    }
  }

  lemma {:induction false} StepTells(config: ExecutionConfig, w: World, e: ExecEvent)
    requires Sound(w) && TrailTells(w)
    ensures TrailTells(StepWorld(config, w, e))
  {
    var c := StepKeepsSound(config, w, e);
    ChangeRewrites(w, StepWorld(config, w, e), c);
    hide StepWorld, RequestsFit, TrailFits, MoneyBalances;
    ChangeTells(w, StepWorld(config, w, e), c);
  }

  lemma {:induction false} ChangeTells(w: World, after: World, c: Change)
    requires KeysHeld(w) && StatusesFit(w) && Rewrites(w, c) && Applies(w, after, c) && TrailTells(w)
    ensures TrailTells(after)
  {
    ChangeKeepsAnswers(w, after, c);
    match c
    case HeldBack(r) =>
      NewEventTells(w, after, c, EventOf(r, "DEFERRED", None));
      hide KeysHeld, StatusesFit, Rewrites, TrailTells, AnswersStay, EventTells;
      OldEventsTell(w, after, [EventOf(r, "DEFERRED", None)]);
    case Dispatched(r) =>
      var started, sent := EventOf(r.(status := ExecutionStarted), "EXECUTION_STARTED", None),
                           EventOf(r, "PROVIDER_REQUESTED", None);
      NewEventTells(w, after, c, started);
      NewEventTells(w, after, c, sent);
      hide KeysHeld, StatusesFit, Rewrites, TrailTells, AnswersStay, EventTells;
      OldEventsTell(w, after, [started, sent]);
    case Settled(r, stage, errorCode) =>
      NewEventTells(w, after, c, EventOf(r, stage, errorCode));
      hide KeysHeld, StatusesFit, Rewrites, TrailTells, AnswersStay, EventTells;
      OldEventsTell(w, after, [EventOf(r, stage, errorCode)]);
    case Moved(k, r, _) =>
      NewEventTells(w, after, c, EventOf(r, MoveStage(r.status), None));
      hide KeysHeld, StatusesFit, Rewrites, TrailTells, AnswersStay, EventTells;
      OldEventsTell(w, after, [EventOf(r, MoveStage(r.status), None)]);
    case _ =>
      hide KeysHeld, StatusesFit, Rewrites, TrailTells, AnswersStay, EventTells;
      assert w.exec.trail + [] == w.exec.trail;
      OldEventsTell(w, after, []);
  }

  lemma {:induction false} ChangeKeepsAnswers(w: World, after: World, c: Change)
    requires KeysHeld(w) && StatusesFit(w) && Rewrites(w, c) && Applies(w, after, c)
    ensures AnswersStay(w, after)
  {
    hide StoredUnder, RequestFor, EventOf, OpenOrStored, Taken, Recovered, StageNames;
  }

  lemma {:induction false} NewEventTells(w: World, after: World, c: Change, e: TrailEvent)
    requires KeysHeld(w) && StatusesFit(w) && Rewrites(w, c) && Applies(w, after, c)
    requires match c
             case HeldBack(r) => e == EventOf(r, "DEFERRED", None)
             case Dispatched(r) =>
               || e == EventOf(r.(status := ExecutionStarted), "EXECUTION_STARTED", None)
               || e == EventOf(r, "PROVIDER_REQUESTED", None)
             case Settled(r, stage, errorCode) => e == EventOf(r, stage, errorCode)
             case Moved(k, r, _) => e == EventOf(r, MoveStage(r.status), None)
             case _ => false
    ensures EventTells(after, e)
  {
    if c.Moved? {
      StoredIsInLedger(w, c.k);
    }
    hide StoredUnder, RequestFor, OpenOrStored, RegistryFromLedger, Taken, Recovered;
  }

  /** In every run each event of the trail tells, field by field, the execution it is about. */
  lemma {:induction false} TrailTellsAlways(config: ExecutionConfig, events: seq<ExecEvent>)
    ensures TrailTells(RunWorld(config, events))
  {
    if events != [] {
      hide TrailTells, StepWorld, Sound;
      TrailTellsAlways(config, events[..|events| - 1]);
      SoundAlways(config, events[..|events| - 1]);
      StepTells(config, RunWorld(config, events[..|events| - 1]), events[|events| - 1]);
    }
  }
}
