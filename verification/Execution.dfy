/** The execution service, its key registry and its webhook handlers as mutable objects.
    Execution records are shared objects: the registry, the service that is still waiting
    for the provider and the callers that were answered all hold the same reference. */
module Execution {
  import opened Identity
  import opened Domain
  import opened StateMachine
  import opened ExecutionSpec

  class ExecutionRecord {
    const id: nat
    const proposalId: Uuid
    const targetType: string
    const targetId: Uuid
    const customerId: Uuid
    const action: Action
    const amountMinor: int
    const currency: string
    const attemptNumber: int
    const key: string
    var status: Status
    var reference: Option<string>
    var lastError: Option<string>

    constructor (id: nat, req: ExecutionRequest, key: string, status: Status)
      ensures Snapshot() == NewRecord(req, key, id, status)
    {
      this.id, this.proposalId, this.key, this.status := id, req.proposal.proposalId, key, status;
      targetType, targetId, customerId := req.target.targetType, req.target.targetId, req.target.customerId;
      action, amountMinor, currency := req.proposal.action, req.target.amountMinor, req.target.currency;
      attemptNumber, reference, lastError := req.target.attemptCount + 1, None, None;
    }

    function Snapshot(): Record
      reads this
    {
      Record(id, proposalId, targetType, targetId, customerId, action, amountMinor, currency, status,
             attemptNumber, key, reference, lastError)
    }
  }

  class ExecutionAuditLogger {
    var events: seq<TrailEvent>

    constructor ()
      ensures events == []
    {
      events := [];
    }

    method RecordEvent(e: TrailEvent)
      modifies this
      ensures events == old(events) + [e]
    {
      events := events + [e];
    }

    /** The trail of one execution, in order. */
    method GetEventsForExecution(id: nat) returns (r: seq<TrailEvent>)
      ensures r == EventsFor(events, id)
    {
      r := [];
      for i := 0 to |events|
        invariant r == EventsFor(events[..i], id)
      {
        assert events[..i + 1][..i] == events[..i];
        if events[i].executionId == id {
          r := r + [events[i]];
        }
      }
      assert events[..|events|] == events;
    }
  }

  /** What a provider adapter received, in order. Its answers are not determined here. */
  class PaymentProvider {
    var requests: seq<ProviderRequest>

    constructor ()
      ensures requests == []
    {
      requests := [];
    }

    method Dispatch(request: ProviderRequest)
      modifies this
      ensures requests == old(requests) + [request]
    {
      requests := requests + [request];
    }
  }

  /** Records by key, with the insertion order that the dictionary remembers. */
  class ExecutionIdempotencyManager {
    var records: map<string, ExecutionRecord>
    var order: seq<string>
    var inFlight: set<string>

    constructor ()
      ensures Valid() && Registry() == [] && inFlight == {}
    {
      records, order, inFlight := map[], [], {};
    }

    ghost predicate Valid()
      reads this`records, this`order
    {
      && (forall i :: 0 <= i < |order| ==> order[i] in records)
      && (forall i, j :: 0 <= i < j < |order| ==> order[i] != order[j])
      && (forall key :: key in records ==> records[key].key == key && key in order)
    }

    ghost function Registry(): (r: seq<Record>)
      requires Valid()
      reads this`records, this`order, records.Values
      ensures |r| == |order|
      ensures forall i :: 0 <= i < |r| ==> r[i] == records[order[i]].Snapshot()
    {
      Snapshots(order, records)
    }

    static ghost function Snapshots(order: seq<string>, records: map<string, ExecutionRecord>): (r: seq<Record>)
      requires forall i :: 0 <= i < |order| ==> order[i] in records
      reads records.Values
      ensures |r| == |order|
      ensures forall i :: 0 <= i < |r| ==> r[i] == records[order[i]].Snapshot()
    {
      seq(|order|, i requires 0 <= i < |order| reads records.Values => records[order[i]].Snapshot())
    }

    lemma FindsByKey(key: string)
      requires Valid()
      ensures var p := Position(Registry(), key);
              if key in records then p < |order| && order[p] == key else p == |order|
    {
    }

    method StartExecution(key: string) returns (canProceed: bool, existing: Option<ExecutionRecord>)
      modifies this`inFlight
      ensures canProceed <==> key !in records && key !in old(inFlight)
      ensures existing == if key in records then Some(records[key]) else None
      ensures inFlight == if canProceed then old(inFlight) + {key} else old(inFlight)
    {
      if key in records {
        return false, Some(records[key]);
      }
      if key in inFlight {
        return false, None;
      }
      inFlight := inFlight + {key};
      return true, None;
    }

    lemma StoreIs(before: seq<Record>, after: seq<Record>, r: Record)
      requires var p := Position(before, r.key);
               && |after| == (if p < |before| then |before| else |before| + 1) && after[p] == r
               && forall j :: 0 <= j < |before| && j != p ==> after[j] == before[j]
      ensures after == Store(before, r)
    {
    }

    /** Assignment to a dictionary item: a new key goes last, an existing one keeps its place. */
    method Put(record: ExecutionRecord)
      requires Valid()
      requires record !in records.Values
      modifies this`records, this`order
      ensures Valid()
      ensures Registry() == Store(old(Registry()), record.Snapshot())
      ensures records == old(records)[record.key := record]
    {
      hide Store, Position;
      FindsByKey(record.key);
      ghost var before, p := Registry(), Position(Registry(), record.key);
      if record.key !in records {
        order := order + [record.key];
      }
      records := records[record.key := record];
      assert Valid();
      assert forall j :: 0 <= j < |before| && j != p ==> Registry()[j] == before[j];
      StoreIs(before, Registry(), record.Snapshot());
    }

    method CompleteExecution(record: ExecutionRecord)
      requires Valid()
      requires record !in records.Values
      modifies this
      ensures Valid()
      ensures Registry() == Store(old(Registry()), record.Snapshot())
      ensures records == old(records)[record.key := record]
      ensures inFlight == old(inFlight) - {record.key}
    {
      hide Store;
      Put(record);
      inFlight := inFlight - {record.key};
    }
  }

  class ExecutionService {
    const config: ExecutionConfig
    const provider: PaymentProvider
    const manager: ExecutionIdempotencyManager
    const auditLogger: ExecutionAuditLogger

    constructor (config: ExecutionConfig, provider: PaymentProvider, manager: ExecutionIdempotencyManager,
                 auditLogger: ExecutionAuditLogger)
      ensures this.config == config && this.provider == provider
      ensures this.manager == manager && this.auditLogger == auditLogger
    {
      this.config, this.provider, this.manager, this.auditLogger := config, provider, manager, auditLogger;
    }

    ghost function State(): ExecState
      requires manager.Valid()
      reads manager, manager.records.Values, provider, auditLogger
    {
      ExecState(manager.Registry(), manager.inFlight, provider.requests, auditLogger.events)
    }

    /** What a caller, or the suspended task, holds on to. */
    ghost predicate Answers(outcome: BeginOutcome<ExecutionRecord>, spec: BeginOutcome<Record>)
      reads if outcome.Existing? || outcome.Held? || outcome.Awaiting? then {outcome.record} else {}
    {
      match outcome
      case Denied(e) => spec == Denied(e)
      case Existing(r) => spec == Existing(r.Snapshot())
      case Conflict => spec == Conflict
      case Held(r) => spec == Held(r.Snapshot())
      case Awaiting(r) => spec == Awaiting(r.Snapshot())
    }

    /** `execute_recovery` up to the await: recheck, take the key, hold back or dispatch.
        `id` is the fresh execution id. A caller that finds the key stored is handed the
        stored object itself. */
    method BeginRecovery(req: ExecutionRequest, id: nat) returns (outcome: BeginOutcome<ExecutionRecord>)
      requires manager.Valid()
      modifies manager, provider, auditLogger
      ensures manager.Valid()
      ensures State() == Begin(config, old(State()), req, id).0
      ensures Answers(outcome, Begin(config, old(State()), req, id).1)
      ensures outcome.Existing? ==> outcome.record in old(manager.records.Values)
      ensures outcome.Held? || outcome.Awaiting? ==> fresh(outcome.record)
      ensures outcome.Awaiting? ==> outcome.record.key in manager.inFlight && outcome.record.key !in manager.records
      ensures forall key :: key in old(manager.records) ==>
                key in manager.records && manager.records[key] == old(manager.records[key])
    {
      hide Revalidate, RequestKey, TakeKey;
      var error := Revalidate(config, req.proposal, req.target, req.result);
      if error.Some? {
        return Denied(error.value);
      }
      outcome := BeginUnderKey(req, RequestKey(config, req), id);
    }

    /** Takes the key and goes on, or tells the caller who has it. */
    method BeginUnderKey(req: ExecutionRequest, key: string, id: nat) returns (outcome: BeginOutcome<ExecutionRecord>)
      requires manager.Valid()
      modifies manager, provider, auditLogger
      ensures manager.Valid()
      ensures State() == TakeKey(old(State()), req, key, id).0
      ensures Answers(outcome, TakeKey(old(State()), req, key, id).1)
      ensures outcome.Existing? ==> outcome.record in old(manager.records.Values)
      ensures outcome.Held? || outcome.Awaiting? ==> fresh(outcome.record)
      ensures outcome.Awaiting? ==> outcome.record.key in manager.inFlight && outcome.record.key !in manager.records
      ensures forall k :: k in old(manager.records) ==>
                k in manager.records && manager.records[k] == old(manager.records[k])
    {
      hide Store, Position, EventOf, RequestFor;
      manager.FindsByKey(key);
      ghost var registry := manager.Registry();
      var canProceed, existing := manager.StartExecution(key);
      assert manager.Registry() == registry;
      if !canProceed {
        if existing.Some? {
          return Existing(existing.value);
        }
        return Conflict;
      }
      outcome := Proceed(req, key, id);
      assert old(manager.inFlight) + {key} - {key} == old(manager.inFlight);
    }

    /** The caller holds the key. */
    method Proceed(req: ExecutionRequest, key: string, id: nat) returns (outcome: BeginOutcome<ExecutionRecord>)
      requires manager.Valid() && key !in manager.records
      modifies manager, provider, auditLogger
      ensures manager.Valid()
      ensures req.proposal.action == RetryLater ==>
                && outcome.Held? && fresh(outcome.record)
                && outcome.record.Snapshot() == NewRecord(req, key, id, Deferred)
                && manager.Registry() == Store(old(manager.Registry()), outcome.record.Snapshot())
                && manager.records == old(manager.records)[key := outcome.record]
                && manager.inFlight == old(manager.inFlight) - {key}
                && provider.requests == old(provider.requests)
                && auditLogger.events
                   == old(auditLogger.events) + [EventOf(outcome.record.Snapshot(), "DEFERRED", None)]
      ensures req.proposal.action != RetryLater ==>
                && outcome.Awaiting? && fresh(outcome.record)
                && outcome.record.Snapshot() == NewRecord(req, key, id, ProviderRequested)
                && unchanged(manager) && manager.Registry() == old(manager.Registry())
                && provider.requests == old(provider.requests) + [RequestFor(outcome.record.Snapshot())]
                && auditLogger.events == old(auditLogger.events)
                     + [EventOf(outcome.record.Snapshot().(status := ExecutionStarted), "EXECUTION_STARTED", None),
                        EventOf(outcome.record.Snapshot(), "PROVIDER_REQUESTED", None)]
    {
      hide Store;
      if req.proposal.action == RetryLater {
        var record := HoldBack(req, key, id);
        return Held(record);
      }
      var record := DispatchNow(req, key, id);
      return Awaiting(record);
    }

    method HoldBack(req: ExecutionRequest, key: string, id: nat) returns (record: ExecutionRecord)
      requires manager.Valid() && key !in manager.records
      modifies manager, auditLogger
      ensures manager.Valid() && fresh(record) && record.Snapshot() == NewRecord(req, key, id, Deferred)
      ensures manager.Registry() == Store(old(manager.Registry()), record.Snapshot())
      ensures manager.records == old(manager.records)[key := record]
      ensures manager.inFlight == old(manager.inFlight) - {key}
      ensures auditLogger.events == old(auditLogger.events) + [EventOf(record.Snapshot(), "DEFERRED", None)]
    {
      hide Store;
      record := new ExecutionRecord(id, req, key, Deferred);
      assert manager.Registry() == old(manager.Registry());
      manager.CompleteExecution(record);
      auditLogger.RecordEvent(EventOf(record.Snapshot(), "DEFERRED", None));
    }

    method DispatchNow(req: ExecutionRequest, key: string, id: nat) returns (record: ExecutionRecord)
      modifies provider, auditLogger
      ensures fresh(record) && record.Snapshot() == NewRecord(req, key, id, ProviderRequested)
      ensures provider.requests == old(provider.requests) + [RequestFor(record.Snapshot())]
      ensures auditLogger.events == old(auditLogger.events)
                + [EventOf(record.Snapshot().(status := ExecutionStarted), "EXECUTION_STARTED", None),
                   EventOf(record.Snapshot(), "PROVIDER_REQUESTED", None)]
    {
      record := new ExecutionRecord(id, req, key, ExecutionStarted);
      auditLogger.RecordEvent(EventOf(record.Snapshot(), "EXECUTION_STARTED", None));
      assert CanTransition(record.status, ProviderRequested);
      record.status := ProviderRequested;
      auditLogger.RecordEvent(EventOf(record.Snapshot(), "PROVIDER_REQUESTED", None));
      provider.Dispatch(RequestFor(record.Snapshot()));
    }

    /** `execute_recovery` after the await. The task still owns its record: it was dispatched,
        holds its key, and is not in the registry yet. */
    method FinishRecovery(record: ExecutionRecord, outcome: ProviderOutcome)
      requires manager.Valid()
      requires record.status == ProviderRequested && record !in manager.records.Values
      modifies manager, record, auditLogger
      ensures manager.Valid()
      ensures State() == Finish(old(State()), old(record.Snapshot()), outcome)
      ensures record.Snapshot() == Answered(old(record.Snapshot()), outcome)
      ensures manager.records == old(manager.records)[record.key := record]
    {
      record.reference := if outcome.Raised? then None else outcome.reference;
      record.lastError := ErrorFor(outcome);
      var next := StatusFor(outcome);
      assert CanTransition(record.status, next);
      record.status := next;
      hide Store, StatusFor, ErrorFor;
      assert manager.Registry() == old(manager.Registry());
      manager.CompleteExecution(record);
      auditLogger.RecordEvent(EventOf(record.Snapshot(), StageFor(next), ErrorFor(outcome)));
    }
  }

  class WebhookHandler {
    const manager: ExecutionIdempotencyManager
    const auditLogger: ExecutionAuditLogger
    var processed: set<string>

    constructor (manager: ExecutionIdempotencyManager, auditLogger: ExecutionAuditLogger)
      ensures this.manager == manager && this.auditLogger == auditLogger && processed == {}
    {
      this.manager, this.auditLogger, processed := manager, auditLogger, {};
    }

    ghost function State(provider: PaymentProvider): ExecState
      requires manager.Valid()
      reads manager, manager.records.Values, provider, auditLogger
    {
      ExecState(manager.Registry(), manager.inFlight, provider.requests, auditLogger.events)
    }

    /** Walks the registry in dictionary order and stops at the first match. */
    method Locate(refs: set<string>) returns (found: Option<ExecutionRecord>)
      requires manager.Valid()
      ensures var i := Matching(manager.Registry(), refs);
              if i < |manager.order| then found == Some(manager.records[manager.order[i]]) else found == None
    {
      for i := 0 to |manager.order|
        invariant forall j :: 0 <= j < i ==>
          !(manager.Registry()[j].reference.Some? && manager.Registry()[j].reference.value in refs)
      {
        var record := manager.records[manager.order[i]];
        if record.reference.Some? && record.reference.value in refs {
          MatchingIs(manager.Registry(), refs, i);
          return Some(record);
        }
      }
      MatchingIs(manager.Registry(), refs, |manager.order|);
      return None;
    }

    lemma MatchingIs(records: seq<Record>, refs: set<string>, i: nat)
      requires i <= |records|
      requires i < |records| ==> records[i].reference.Some? && records[i].reference.value in refs
      requires forall j :: 0 <= j < i ==> !(records[j].reference.Some? && records[j].reference.value in refs)
      ensures Matching(records, refs) == i
    {
    }

    method HandleWebhook(w: Webhook, ghost provider: PaymentProvider) returns (reply: WebhookReply)
      requires manager.Valid()
      modifies this, manager.records.Values, auditLogger
      ensures manager.Valid() && unchanged(manager)
      ensures (State(provider), processed, reply)
              == ExecutionSpec.HandleWebhook(old(State(provider)), old(processed), w)
    {
      hide EventId, CandidateReferences, ApplyWebhook;
      if !w.hasInputs {
        return Refused(InvalidSignature);
      }
      if !w.signatureValid {
        return Refused(InvalidSignature);
      }
      if !w.parsed {
        return Refused(MalformedPayload);
      }
      if EventId(w) in processed {
        return WebhookReply(true, IdempotentReplay, None);
      }
      processed := processed + {EventId(w)};
      var refs := CandidateReferences(w);
      if refs == {} {
        return Refused(MissingProviderReference);
      }
      reply := ReconcileFirstMatch(refs, w, provider);
    }

    method ReconcileFirstMatch(refs: set<string>, w: Webhook, ghost provider: PaymentProvider)
      returns (reply: WebhookReply)
      requires manager.Valid()
      modifies manager.records.Values, auditLogger
      ensures manager.Valid()
      ensures (State(provider), reply) == ApplyWebhook(old(State(provider)), refs, w)
    {
      hide Matching, Reconcile, EventOf;
      var found := Locate(refs);
      if found.None? {
        return Refused(UnknownExecutionReference);
      }
      reply := ReconcileRecord(found.value, Matching(manager.Registry(), refs), w);
    }

    method ReconcileRecord(record: ExecutionRecord, ghost i: nat, w: Webhook) returns (reply: WebhookReply)
      requires manager.Valid() && i < |manager.order| && manager.records[manager.order[i]] == record
      modifies record, auditLogger
      ensures manager.Valid()
      ensures var (r, next) := Reconcile(old(record.Snapshot()), w);
              reply == r
              && (if r.code == ReconciledSuccessfully
                  then manager.Registry() == old(manager.Registry())[i := old(record.Snapshot()).(status := next)]
                    && auditLogger.events == old(auditLogger.events)
                         + [EventOf(old(record.Snapshot()).(status := next), MoveStage(next), None)]
                  else manager.Registry() == old(manager.Registry()) && auditLogger.events == old(auditLogger.events))
    {
      var captured := w.eventType in CAPTURE_EVENTS;
      if record.status == Reconciled && captured {
        return WebhookReply(true, AlreadyReconciled,
                            Some(Reconciliation(record.id, Reconciled, Reconciled, record.amountMinor,
                                                record.reference)));
      }
      var entity := CheckedEntity(w);
      if AmountDisagrees(entity, record.Snapshot()) {
        return Refused(WebhookAmountMismatch);
      }
      if CurrencyDisagrees(entity, record.Snapshot()) {
        return Refused(WebhookCurrencyMismatch);
      }
      var previous := record.status;
      var next, recovered;
      if captured {
        next, recovered := Reconciled, record.amountMinor;
      } else if w.eventType == "payment.failed" {
        next, recovered := Failed, 0;
      } else {
        return WebhookReply(true, IgnoredEventType, None);
      }
      if !CanTransition(previous, next) {
        return Refused(InvalidStateTransition);
      }
      MoveRecord(record, i, next);
      return WebhookReply(true, ReconciledSuccessfully,
                          Some(Reconciliation(record.id, previous, next, recovered, record.reference)));
    }

    /** The record is shared, so the write shows in the registry. */
    method MoveRecord(record: ExecutionRecord, ghost i: nat, next: Status)
      requires manager.Valid() && i < |manager.order| && manager.records[manager.order[i]] == record
      modifies record, auditLogger
      ensures manager.Valid() && record.Snapshot() == old(record.Snapshot()).(status := next)
      ensures manager.Registry() == old(manager.Registry())[i := record.Snapshot()]
      ensures auditLogger.events == old(auditLogger.events) + [EventOf(record.Snapshot(), MoveStage(next), None)]
    {
      ghost var before := manager.Registry();
      record.status := next;
      forall j | 0 <= j < |before| && j != i ensures manager.Registry()[j] == before[j] {
        assert manager.order[j] != manager.order[i];
        assert manager.records[manager.order[j]] != record;
      }
      auditLogger.RecordEvent(EventOf(record.Snapshot(), MoveStage(next), None));
    }
  }
}
