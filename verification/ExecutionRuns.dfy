/** What holds of the execution layer under every interleaving of executions that begin,
    finish or die at the await, and of webhooks delivered to any number of handlers that
    share one registry and one audit trail. */
module ExecutionRuns {
  import opened Domain
  import opened StateMachine
  import opened ExecutionSpec
  import opened Sequences

  /** `ledger` lists every execution ever begun, by execution id, as its record object
      stands now. `suspended` are the executions waiting for the provider, `lost` those
      whose task died there. `handled` maps a handler to the event ids it has consumed. */
  datatype World = World(
    exec: ExecState,
    ledger: seq<Record>,
    suspended: set<nat>,
    lost: set<nat>,
    handled: map<nat, set<string>>,
    replies: seq<WebhookReply>)

  const EMPTY_WORLD := World(NO_EXECUTIONS, [], {}, {}, map[], [])

  datatype ExecEvent =
    | BeginExecution(request: ExecutionRequest)
    | ProviderAnswers(id: nat, outcome: ProviderOutcome)
    | TaskDies(id: nat)
    | DeliverWebhook(handler: nat, webhook: Webhook)

  function HandledBy(w: World, handler: nat): set<string> {
    if handler in w.handled then w.handled[handler] else {}
  }

  function AfterBegin(config: ExecutionConfig, w: World, req: ExecutionRequest): World {
    var id := |w.ledger|;
    var (st, outcome) := Begin(config, w.exec, req, id);
    match outcome
    case Held(r) => w.(exec := st, ledger := w.ledger + [r])
    case Awaiting(r) => w.(exec := st, ledger := w.ledger + [r], suspended := w.suspended + {id})
    case _ => w
  }

  function AfterFinish(w: World, id: nat, outcome: ProviderOutcome): World {
    if id in w.suspended && id < |w.ledger| then
      w.(exec := Finish(w.exec, w.ledger[id], outcome),
         ledger := w.ledger[id := Answered(w.ledger[id], outcome)],
         suspended := w.suspended - {id})
    else w
  }

  function AfterWebhook(w: World, handler: nat, webhook: Webhook): World {
    var (st, seen, reply) := HandleWebhook(w.exec, HandledBy(w, handler), webhook);
    var heard := w.(exec := st, handled := w.handled[handler := seen], replies := w.replies + [reply]);
    if reply.code == ReconciledSuccessfully && reply.result.Some? && reply.result.value.executionId < |w.ledger| then
      var id := reply.result.value.executionId;
      heard.(ledger := w.ledger[id := w.ledger[id].(status := reply.result.value.reconciled)])
    else heard
  }

  function StepWorld(config: ExecutionConfig, w: World, e: ExecEvent): World {
    match e
    case BeginExecution(req) => AfterBegin(config, w, req)
    case ProviderAnswers(id, outcome) => AfterFinish(w, id, outcome)
    case TaskDies(id) =>
      if id in w.suspended then w.(suspended := w.suspended - {id}, lost := w.lost + {id}) else w
    case DeliverWebhook(handler, webhook) => AfterWebhook(w, handler, webhook)
  }

  function RunWorld(config: ExecutionConfig, events: seq<ExecEvent>): World {
    if events == [] then EMPTY_WORLD
    else StepWorld(config, RunWorld(config, events[..|events| - 1]), events[|events| - 1])
  }

  // ---------------------------------------------------------------------------
  // The key protocol
  // ---------------------------------------------------------------------------

  predicate Open(w: World, id: nat) {
    id in w.suspended || id in w.lost
  }

  predicate StoredUnder(records: seq<Record>, key: string) {
    Position(records, key) < |records|
  }

  /** Every key was taken once. The execution that took it is either in flight or stored,
      never both, and what the registry holds is that execution's record. */
  ghost predicate KeysHeld(w: World) {
    && w.suspended !! w.lost
    && (forall id :: id in w.suspended ==> id < |w.ledger|)
    && (forall id :: id in w.lost ==> id < |w.ledger|)
    && (forall i :: 0 <= i < |w.ledger| ==> w.ledger[i].id == i)
    && (forall i, j :: 0 <= i < j < |w.ledger| ==> w.ledger[i].key != w.ledger[j].key)
    && OpenOrStored(w)
    && RegistryFromLedger(w.exec.records, w.ledger)
    && (forall key :: key in w.exec.inFlight ==> Taken(w.ledger, key))
  }

  ghost predicate OpenOrStored(w: World) {
    && (forall i :: 0 <= i < |w.ledger| ==> (w.ledger[i].key in w.exec.inFlight <==> Open(w, i)))
    && (forall i :: 0 <= i < |w.ledger| ==> (StoredUnder(w.exec.records, w.ledger[i].key) <==> !Open(w, i)))
  }

  predicate Taken(ledger: seq<Record>, key: string) {
    exists i :: 0 <= i < |ledger| && ledger[i].key == key
  }

  ghost predicate RegistryFromLedger(records: seq<Record>, ledger: seq<Record>) {
    && (forall k :: 0 <= k < |records| ==> records[k].id < |ledger| && ledger[records[k].id] == records[k])
    && (forall j, k :: 0 <= j < k < |records| ==> records[j].id != records[k].id)
  }

  lemma PositionFound(records: seq<Record>, k: nat)
    requires k < |records|
    ensures StoredUnder(records, records[k].key)
  {
  }

  lemma PositionAppend(records: seq<Record>, r: Record, key: string)
    ensures StoredUnder(records + [r], key) <==> StoredUnder(records, key) || key == r.key
  {
    var longer := records + [r];
    if StoredUnder(records, key) {
      assert longer[Position(records, key)] == records[Position(records, key)];
    } else if key == r.key {
      assert longer[|records|] == r;
    } else {
      forall i | 0 <= i < |longer| ensures longer[i].key != key {
        if i < |records| {
          assert longer[i] == records[i];
        }
      }
    }
  }

  lemma PositionUpdate(records: seq<Record>, k: nat, r: Record, key: string)
    requires k < |records| && r.key == records[k].key
    ensures StoredUnder(records[k := r], key) <==> StoredUnder(records, key)
  {
    var other := records[k := r];
    if StoredUnder(records, key) {
      assert other[Position(records, key)].key == key;
    }
    if StoredUnder(other, key) {
      assert records[Position(other, key)].key == key;
    }
  }

  /** A key that is neither stored nor in flight has never been taken. */
  lemma FreeKeyIsNew(w: World, key: string)
    requires KeysHeld(w)
    requires !StoredUnder(w.exec.records, key) && key !in w.exec.inFlight
    ensures forall i :: 0 <= i < |w.ledger| ==> w.ledger[i].key != key
  {
  }

  lemma TakenStays(ledger: seq<Record>, ledger': seq<Record>, inFlight: set<string>)
    requires forall key :: key in inFlight ==> Taken(ledger, key)
    requires |ledger| <= |ledger'| && forall i :: 0 <= i < |ledger| ==> ledger'[i].key == ledger[i].key
    ensures forall key :: key in inFlight ==> Taken(ledger', key)
  {
  }

  lemma HoldingKeepsKeys(w: World, after: World, r: Record)
    requires KeysHeld(w)
    requires r.id == |w.ledger| && !StoredUnder(w.exec.records, r.key) && r.key !in w.exec.inFlight
    requires after.ledger == w.ledger + [r] && after.exec.records == w.exec.records + [r]
    requires after.exec.inFlight == w.exec.inFlight && after.suspended == w.suspended && after.lost == w.lost
    ensures KeysHeld(after)
  {
    FreeKeyIsNew(w, r.key);
    TakenStays(w.ledger, after.ledger, w.exec.inFlight);
    forall i | 0 <= i < |after.ledger|
      ensures StoredUnder(after.exec.records, after.ledger[i].key) <==> !Open(after, i)
    {
      PositionAppend(w.exec.records, r, after.ledger[i].key);
    }
  }

  lemma DispatchingKeepsKeys(w: World, after: World, r: Record)
    requires KeysHeld(w)
    requires r.id == |w.ledger| && !StoredUnder(w.exec.records, r.key) && r.key !in w.exec.inFlight
    requires after.ledger == w.ledger + [r] && after.exec.records == w.exec.records
    requires after.exec.inFlight == w.exec.inFlight + {r.key}
    requires after.suspended == w.suspended + {r.id} && after.lost == w.lost
    ensures KeysHeld(after)
  {
    FreeKeyIsNew(w, r.key);
    TakenStays(w.ledger, after.ledger, w.exec.inFlight);
    assert after.ledger[|w.ledger|].key == r.key;
    DispatchingIsOpen(w, after, r);
    hide OpenOrStored;
  }

  lemma DispatchingIsOpen(w: World, after: World, r: Record)
    requires OpenOrStored(w) && (forall i :: 0 <= i < |w.ledger| ==> w.ledger[i].key != r.key)
    requires r.id == |w.ledger| && !StoredUnder(w.exec.records, r.key)
    requires after.ledger == w.ledger + [r] && after.exec.records == w.exec.records
    requires after.exec.inFlight == w.exec.inFlight + {r.key}
    requires after.suspended == w.suspended + {r.id} && after.lost == w.lost
    ensures OpenOrStored(after)
  {
    hide StoredUnder;
  }

  /** What a beginning that gets the key does to the shared state. */
  lemma TakeKeyShape(st: ExecState, req: ExecutionRequest, key: string, id: nat)
    ensures var (after, outcome) := TakeKey(st, req, key, id);
            match outcome
            case Held(r) =>
              !StoredUnder(st.records, key) && key !in st.inFlight
              && r == NewRecord(req, key, id, Deferred) && req.proposal.action == RetryLater
              && after == st.(records := st.records + [r], trail := st.trail + [EventOf(r, "DEFERRED", None)])
            case Awaiting(r) =>
              !StoredUnder(st.records, key) && key !in st.inFlight
              && r == NewRecord(req, key, id, ProviderRequested) && req.proposal.action != RetryLater
              && after == st.(inFlight := st.inFlight + {key}, requests := st.requests + [RequestFor(r)],
                              trail := st.trail + [EventOf(r.(status := ExecutionStarted), "EXECUTION_STARTED", None),
                                                   EventOf(r, "PROVIDER_REQUESTED", None)])
            case Existing(r) =>
              after == st && StoredUnder(st.records, key) && r == st.records[Position(st.records, key)]
            case Conflict => after == st && key in st.inFlight
            case Denied(_) => false
  {
  }

  lemma FinishStores(w: World, id: nat, outcome: ProviderOutcome)
    requires KeysHeld(w) && id in w.suspended
    ensures AfterFinish(w, id, outcome).exec.records == w.exec.records + [Answered(w.ledger[id], outcome)]
  {
  }

  lemma SettlingKeepsKeys(w: World, after: World, r: Record)
    requires KeysHeld(w) && r.id in w.suspended && r.key == w.ledger[r.id].key
    requires after.ledger == w.ledger[r.id := r] && after.exec.records == w.exec.records + [r]
    requires after.exec.inFlight == w.exec.inFlight - {r.key}
    requires after.suspended == w.suspended - {r.id} && after.lost == w.lost
    ensures KeysHeld(after)
  {
    assert Open(w, r.id);
    TakenStays(w.ledger, after.ledger, w.exec.inFlight);
    forall k | 0 <= k < |w.exec.records| ensures w.exec.records[k].id != r.id {
      PositionFound(w.exec.records, k);
    }
    forall i | 0 <= i < |after.ledger|
      ensures after.ledger[i].key == w.ledger[i].key && after.ledger[i].id == i
      ensures StoredUnder(after.exec.records, after.ledger[i].key) <==> !Open(after, i)
    {
      PositionAppend(w.exec.records, r, after.ledger[i].key);
    }
  }

  /** What a webhook that reconciles does: one stored record moves along a legal
      transition, and the trail gains that move. */
  ghost predicate MovesRecord(before: ExecState, after: ExecState, k: nat, reply: WebhookReply) {
    && k < |before.records| && reply.result.Some?
    && var r, to := before.records[k], reply.result.value.reconciled;
       && reply.result.value.executionId == r.id
       && to in {Reconciled, Failed} && CanTransition(r.status, to)
       && reply.result.value.amountRecovered == (if to == Reconciled then r.amountMinor else 0)
       && after == before.(records := before.records[k := r.(status := to)],
                           trail := before.trail + [EventOf(r.(status := to), MoveStage(to), None)])
  }

  lemma ApplyWebhookShape(st: ExecState, refs: set<string>, webhook: Webhook)
    ensures var (after, reply) := ApplyWebhook(st, refs, webhook);
            if reply.code == ReconciledSuccessfully then MovesRecord(st, after, Matching(st.records, refs), reply)
            else after == st
  {
    hide Matching, EventOf, CheckedEntity, AmountDisagrees, CurrencyDisagrees, CanTransition;
  }

  /** A delivery either leaves everything but the handler's memory alone, or moves one record. */
  lemma WebhookShape(w: World, handler: nat, webhook: Webhook) returns (k: nat, reply: WebhookReply)
    requires KeysHeld(w)
    ensures var after := AfterWebhook(w, handler, webhook);
            && after.replies == w.replies + [reply]
            && after.suspended == w.suspended && after.lost == w.lost
            && (if reply.code == ReconciledSuccessfully
                then MovesRecord(w.exec, after.exec, k, reply)
                     && after.ledger == w.ledger[w.exec.records[k].id := after.exec.records[k]]
                else after.exec == w.exec && after.ledger == w.ledger)
  {
    var refs := CandidateReferences(webhook);
    k := Matching(w.exec.records, refs);
    reply := HandleWebhook(w.exec, HandledBy(w, handler), webhook).2;
    ApplyWebhookShape(w.exec, refs, webhook);
  }

  lemma MovingKeepsKeys(w: World, after: World, k: nat, r: Record)
    requires KeysHeld(w) && k < |w.exec.records|
    requires r.key == w.exec.records[k].key && r.id == w.exec.records[k].id
    requires after.exec.records == w.exec.records[k := r] && after.ledger == w.ledger[r.id := r]
    requires after.exec.inFlight == w.exec.inFlight && after.suspended == w.suspended && after.lost == w.lost
    ensures KeysHeld(after)
  {
    TakenStays(w.ledger, after.ledger, w.exec.inFlight);
    forall i | 0 <= i < |after.ledger|
      ensures after.ledger[i].key == w.ledger[i].key && after.ledger[i].id == i
      ensures StoredUnder(after.exec.records, after.ledger[i].key) <==> !Open(after, i)
    {
      PositionUpdate(w.exec.records, k, r, after.ledger[i].key);
    }
  }

  // ---------------------------------------------------------------------------
  // Every step is one of six changes
  // ---------------------------------------------------------------------------

  datatype Change =
    | Quiet
    | HeldBack(r: Record)
    | Dispatched(r: Record)
    | Settled(r: Record, stage: string, errorCode: Option<string>)
    | Died(id: nat)
    | Moved(k: nat, r: Record, reply: WebhookReply)

  ghost predicate IsNew(w: World, r: Record) {
    r.id == |w.ledger| && r.amountMinor > 0 && r.reference == None
    && !StoredUnder(w.exec.records, r.key) && r.key !in w.exec.inFlight
  }

  /** The stage under which an event reports a status. */
  predicate StageNames(stage: string, status: Status) {
    match status
    case Deferred => stage == "DEFERRED"
    case ExecutionStarted => stage == "EXECUTION_STARTED"
    case ProviderRequested => stage == "PROVIDER_REQUESTED"
    case Succeeded => stage == "PROVIDER_CONFIRMED"
    case UnknownProviderState => stage == "UNKNOWN_PROVIDER_STATE"
    case Failed => stage == "FAILED"
    case Reconciled => stage == "RECONCILED"
    case _ => false
  }

  ghost predicate Applies(w: World, after: World, c: Change) {
    match c
    case Quiet =>
      && after.exec == w.exec && after.ledger == w.ledger && after.suspended == w.suspended && after.lost == w.lost
      && Recovered(after.replies) == Recovered(w.replies)
    case HeldBack(r) =>
      && IsNew(w, r) && r.status == Deferred
      && after == w.(ledger := w.ledger + [r],
                     exec := w.exec.(records := w.exec.records + [r],
                                     trail := w.exec.trail + [EventOf(r, "DEFERRED", None)]))
    case Dispatched(r) =>
      && IsNew(w, r) && r.status == ProviderRequested
      && after == w.(ledger := w.ledger + [r],
                     suspended := w.suspended + {r.id},
                     exec := w.exec.(inFlight := w.exec.inFlight + {r.key},
                                     requests := w.exec.requests + [RequestFor(r)],
                                     trail := w.exec.trail
                                         + [EventOf(r.(status := ExecutionStarted), "EXECUTION_STARTED", None),
                                                              EventOf(r, "PROVIDER_REQUESTED", None)]))
    case Settled(r, stage, errorCode) =>
      && r.id in w.suspended && r.id < |w.ledger|
      && r == w.ledger[r.id].(status := r.status, reference := r.reference, lastError := r.lastError)
      && r.status in {Succeeded, Failed, UnknownProviderState}
      && StageNames(stage, r.status) && errorCode == r.lastError
      && after == w.(ledger := w.ledger[r.id := r],
                     suspended := w.suspended - {r.id},
                     exec := w.exec.(records := w.exec.records + [r], inFlight := w.exec.inFlight - {r.key},
                                     trail := w.exec.trail + [EventOf(r, stage, errorCode)]))
    case Died(id) =>
      id in w.suspended && after == w.(suspended := w.suspended - {id}, lost := w.lost + {id})
    case Moved(k, r, reply) =>
      && k < |w.exec.records| && r == w.exec.records[k].(status := r.status) && r.id < |w.ledger|
      && r.status in {Reconciled, Failed} && CanTransition(w.exec.records[k].status, r.status)
      && RecoveredBy(reply) == (if r.status == Reconciled then r.amountMinor else 0)
      && after.replies == w.replies + [reply]
      && after.ledger == w.ledger[r.id := r] && after.suspended == w.suspended && after.lost == w.lost
      && after.exec == w.exec.(records := w.exec.records[k := r],
                               trail := w.exec.trail + [EventOf(r, MoveStage(r.status), None)])
  }

  lemma BeginChange(config: ExecutionConfig, w: World, req: ExecutionRequest) returns (c: Change)
    ensures Applies(w, AfterBegin(config, w, req), c)
  {
    var key := RequestKey(config, req);
    TakeKeyShape(w.exec, req, key, |w.ledger|);
    var outcome := TakeKey(w.exec, req, key, |w.ledger|).1;
    c := Quiet;
    if Revalidate(config, req.proposal, req.target, req.result).None? {
      if outcome.Held? {
        c := HeldBack(outcome.record);
      } else if outcome.Awaiting? {
        c := Dispatched(outcome.record);
      }
    }
  }

  lemma StepChange(config: ExecutionConfig, w: World, e: ExecEvent) returns (c: Change)
    requires KeysHeld(w)
    ensures Applies(w, StepWorld(config, w, e), c)
  {
    c := Quiet;
    match e
    case BeginExecution(req) => c := BeginChange(config, w, req);
    case ProviderAnswers(id, outcome) =>
      if id in w.suspended {
        FinishStores(w, id, outcome);
        var r := Answered(w.ledger[id], outcome);
        c := Settled(r, StageFor(r.status), ErrorFor(outcome));
      }
    case TaskDies(id) =>
      if id in w.suspended {
        c := Died(id);
      }
    case DeliverWebhook(handler, webhook) =>
      var k, reply := WebhookShape(w, handler, webhook);
      if reply.code == ReconciledSuccessfully {
        c := Moved(k, AfterWebhook(w, handler, webhook).exec.records[k], reply);
      }
  }

  /** The record a change rewrites, as the ledger had it. */
  ghost predicate Rewrites(w: World, c: Change) {
    match c
    case Settled(r, _, _) =>
      r.id < |w.ledger| && w.ledger[r.id].status == ProviderRequested && SameExecution(w.ledger[r.id], r)
      && CanTransition(ProviderRequested, r.status)
    case Moved(k, r, _) =>
      r.id < |w.ledger| && k < |w.exec.records| && w.ledger[r.id] == w.exec.records[k]
      && w.ledger[r.id].status in {Succeeded, UnknownProviderState} && SameExecution(w.ledger[r.id], r)
    case _ => true
  }

  /** The fields of a record that no step ever touches. */
  predicate SameExecution(earlier: Record, later: Record) {
    earlier == later.(status := earlier.status, reference := earlier.reference, lastError := earlier.lastError)
  }

  lemma SettledWasWaiting(w: World, id: nat)
    requires KeysHeld(w) && StatusesFit(w) && id in w.suspended
    ensures id < |w.ledger| && w.ledger[id].status == ProviderRequested
  {
  }

  lemma StoredIsInLedger(w: World, k: nat)
    requires KeysHeld(w) && StatusesFit(w) && k < |w.exec.records|
    ensures var r := w.exec.records[k];
            r.id < |w.ledger| && w.ledger[r.id] == r && !Open(w, r.id) && r.status in STORED_STATUSES
  {
  }

  lemma ChangeRewrites(w: World, after: World, c: Change)
    requires KeysHeld(w) && StatusesFit(w) && Applies(w, after, c)
    ensures Rewrites(w, c)
  {
    match c
    case Settled(r, _, _) => SettledWasWaiting(w, r.id);
    case Moved(k, r, _) => StoredIsInLedger(w, k);
    case _ =>
  }

  lemma {:induction false} ChangeKeepsKeys(w: World, after: World, c: Change)
    requires KeysHeld(w) && Applies(w, after, c)
    ensures KeysHeld(after)
  {
    hide StoredUnder, Recovered, EventOf, RequestFor, MovesRecord;
    match c
    case Quiet =>
    case HeldBack(r) => HoldingKeepsKeys(w, after, r);
    case Dispatched(r) => DispatchingKeepsKeys(w, after, r);
    case Settled(r, _, _) => SettlingKeepsKeys(w, after, r);
    case Died(id) =>
    case Moved(k, r, _) => MovingKeepsKeys(w, after, k, r);
  }

  // ---------------------------------------------------------------------------
  // What the provider was sent
  // ---------------------------------------------------------------------------

  /** The requests of the executions that were not held back, in the order they began. */
  function RequestsOf(ledger: seq<Record>): seq<ProviderRequest> {
    if ledger == [] then []
    else
      var r := ledger[|ledger| - 1];
      RequestsOf(ledger[..|ledger| - 1]) + (if r.status == Deferred then [] else [RequestFor(r)])
  }

  lemma RequestsOfAppend(ledger: seq<Record>, r: Record)
    ensures RequestsOf(ledger + [r]) == RequestsOf(ledger) + (if r.status == Deferred then [] else [RequestFor(r)])
  {
  }

  lemma {:induction false} RequestsOfUpdate(ledger: seq<Record>, i: nat, r: Record)
    requires i < |ledger| && RequestFor(r) == RequestFor(ledger[i])
    requires r.status == Deferred <==> ledger[i].status == Deferred
    ensures RequestsOf(ledger[i := r]) == RequestsOf(ledger)
  {
    var n := |ledger| - 1;
    if i < n {
      assert ledger[i := r][..n] == ledger[..n][i := r];
      RequestsOfUpdate(ledger[..n], i, r);
    } else {
      assert ledger[i := r][..n] == ledger[..n];
    }
  }

  lemma {:induction false} RequestFromLedger(ledger: seq<Record>, q: nat) returns (i: nat)
    requires q < |RequestsOf(ledger)|
    ensures i < |ledger| && ledger[i].status != Deferred && RequestsOf(ledger)[q] == RequestFor(ledger[i])
  {
    var n := |ledger| - 1;
    if q < |RequestsOf(ledger[..n])| {
      i := RequestFromLedger(ledger[..n], q);
    } else {
      i := n;
    }
  }

  lemma {:induction false} RequestKeysDiffer(ledger: seq<Record>, p: nat, q: nat)
    requires forall i, j :: 0 <= i < j < |ledger| ==> ledger[i].key != ledger[j].key
    requires p < q < |RequestsOf(ledger)|
    ensures RequestsOf(ledger)[p].key != RequestsOf(ledger)[q].key
  {
    var n := |ledger| - 1;
    if q < |RequestsOf(ledger[..n])| {
      RequestKeysDiffer(ledger[..n], p, q);
    } else {
      var i := RequestFromLedger(ledger[..n], p);
      assert ledger[i].key != ledger[n].key;
    }
  }

  // ---------------------------------------------------------------------------
  // Statuses and the audit trail
  // ---------------------------------------------------------------------------

  const STORED_STATUSES: set<Status> := {Deferred, Succeeded, Failed, UnknownProviderState, Reconciled}

  /** An execution in flight waits for the provider; a stored one has one of five statuses. */
  ghost predicate StatusesFit(w: World) {
    && (forall i :: 0 <= i < |w.ledger| && Open(w, i) ==> w.ledger[i].status == ProviderRequested)
    && (forall i :: 0 <= i < |w.ledger| && !Open(w, i) ==> w.ledger[i].status in STORED_STATUSES)
    && (forall i :: 0 <= i < |w.ledger| ==> w.ledger[i].amountMinor > 0)
  }

  /** The provider was sent the requests of the dispatched executions and nothing else. */
  ghost predicate RequestsFit(w: World) {
    w.exec.requests == RequestsOf(w.ledger)
  }

  lemma ChangeKeepsRequests(w: World, after: World, c: Change)
    requires RequestsFit(w) && Rewrites(w, c) && Applies(w, after, c)
    ensures RequestsFit(after)
  {
    match c
    case Quiet =>
    case HeldBack(r) => RequestsOfAppend(w.ledger, r);
    case Dispatched(r) => RequestsOfAppend(w.ledger, r);
    case Settled(r, _, _) => RequestsOfUpdate(w.ledger, r.id, r);
    case Died(id) =>
    case Moved(k, r, _) => RequestsOfUpdate(w.ledger, r.id, r);
  }

  lemma AppendKeepsStatuses(w: World, after: World, r: Record)
    requires KeysHeld(w) && StatusesFit(w) && r.amountMinor > 0
    requires after.ledger == w.ledger + [r] && after.lost == w.lost
    requires if r.status == Deferred then after.suspended == w.suspended
             else r.status == ProviderRequested && after.suspended == w.suspended + {|w.ledger|}
    ensures StatusesFit(after)
  {
  }

  lemma UpdateKeepsStatuses(w: World, after: World, r: Record)
    requires StatusesFit(w) && r.id < |w.ledger|
    requires r.amountMinor > 0 && r.status in STORED_STATUSES
    requires after.ledger == w.ledger[r.id := r]
    requires after.suspended == w.suspended - {r.id} && after.lost == w.lost && r.id !in w.lost
    ensures StatusesFit(after)
  {
  }

  lemma {:induction false} ChangeKeepsStatuses(w: World, after: World, c: Change)
    requires KeysHeld(w) && StatusesFit(w) && Applies(w, after, c)
    ensures StatusesFit(after)
  {
    match c
    case Quiet =>
    case HeldBack(r) => AppendKeepsStatuses(w, after, r);
    case Dispatched(r) => AppendKeepsStatuses(w, after, r);
    case Settled(r, _, _) =>
      SettledWasWaiting(w, r.id);
      UpdateKeepsStatuses(w, after, r);
    case Died(id) =>
    case Moved(k, r, _) =>
      StoredIsInLedger(w, k);
      assert w.suspended - {r.id} == w.suspended;
      UpdateKeepsStatuses(w, after, r);
  }

  /** The statuses the trail reports for one execution, in order. */
  function Trail(trail: seq<TrailEvent>, id: nat): seq<Status> {
    if trail == [] then []
    else
      var e := trail[|trail| - 1];
      Trail(trail[..|trail| - 1], id) + (if e.executionId == id then [e.status] else [])
  }

  /** They are the statuses of the events that the audit logger returns for it. */
  lemma {:induction false} TrailIsReported(trail: seq<TrailEvent>, id: nat)
    ensures var events := EventsFor(trail, id);
            |Trail(trail, id)| == |events|
            && forall k :: 0 <= k < |events| ==> events[k].executionId == id && Trail(trail, id)[k] == events[k].status
  {
    if trail != [] {
      TrailIsReported(trail[..|trail| - 1], id);
    }
  }

  lemma TrailAppend(trail: seq<TrailEvent>, e: TrailEvent, id: nat)
    ensures Trail(trail + [e], id) == Trail(trail, id) + (if e.executionId == id then [e.status] else [])
  {
  }

  lemma {:induction false} TrailOfUnbegun(trail: seq<TrailEvent>, id: nat)
    requires forall i :: 0 <= i < |trail| ==> trail[i].executionId < id
    ensures Trail(trail, id) == []
  {
    if trail != [] {
      TrailOfUnbegun(trail[..|trail| - 1], id);
    }
  }

  /** The trail spells out, for an execution, a legal path that starts where executions
      start and ends in the status the record has now. */
  predicate TrailSpells(trail: seq<TrailEvent>, r: Record) {
    var path := Trail(trail, r.id);
    LegalPath(path) && path[0] in {ExecutionStarted, Deferred} && path[|path| - 1] == r.status
  }

  ghost predicate TrailFits(w: World) {
    && (forall i :: 0 <= i < |w.exec.trail| ==> w.exec.trail[i].executionId < |w.ledger|)
    && (forall i :: 0 <= i < |w.ledger| ==> TrailSpells(w.exec.trail, w.ledger[i]))
  }

  lemma TrailUntouched(trail: seq<TrailEvent>, e: TrailEvent, r: Record)
    requires TrailSpells(trail, r) && e.executionId != r.id
    ensures TrailSpells(trail + [e], r)
  {
  }

  lemma TrailMoves(trail: seq<TrailEvent>, r: Record, r': Record, stage: string, errorCode: Option<string>)
    requires TrailSpells(trail, r) && r'.id == r.id && CanTransition(r.status, r'.status)
    ensures TrailSpells(trail + [EventOf(r', stage, errorCode)], r')
  {
  }

  lemma TrailStarts(trail: seq<TrailEvent>, r: Record, stage: string)
    requires forall i :: 0 <= i < |trail| ==> trail[i].executionId < r.id
    requires r.status in {ExecutionStarted, Deferred}
    ensures TrailSpells(trail + [EventOf(r, stage, None)], r)
  {
    TrailOfUnbegun(trail, r.id);
    TrailAppend(trail, EventOf(r, stage, None), r.id);
  }

  lemma {:induction false} ChangeKeepsTrail(w: World, after: World, c: Change)
    requires KeysHeld(w) && Rewrites(w, c) && TrailFits(w) && Applies(w, after, c)
    ensures TrailFits(after)
  {
    match c
    case Quiet =>
    case Died(id) =>
    case HeldBack(r) => HoldingKeepsTrail(w, after, r);
    case Dispatched(r) => DispatchingKeepsTrail(w, after, r);
    case Settled(r, stage, errorCode) => LedgerMoveKeepsTrail(w, after, r, stage, errorCode);
    case Moved(k, r, _) => LedgerMoveKeepsTrail(w, after, r, MoveStage(r.status), None);
  }

  lemma {:induction false} HoldingKeepsTrail(w: World, after: World, r: Record)
    requires KeysHeld(w) && TrailFits(w) && r.id == |w.ledger| && r.status == Deferred
    requires after.ledger == w.ledger + [r]
    requires after.exec.trail == w.exec.trail + [EventOf(r, "DEFERRED", None)]
    ensures TrailFits(after)
  {
    TrailStarts(w.exec.trail, r, "DEFERRED");
    forall i | 0 <= i < |after.ledger| ensures TrailSpells(after.exec.trail, after.ledger[i]) {
      if i < |w.ledger| {
        TrailUntouched(w.exec.trail, EventOf(r, "DEFERRED", None), w.ledger[i]);
      }
    }
  }

  lemma DispatchingKeepsTrail(w: World, after: World, r: Record)
    requires KeysHeld(w) && TrailFits(w) && r.id == |w.ledger| && r.status == ProviderRequested
    requires after.ledger == w.ledger + [r]
    requires after.exec.trail == w.exec.trail + [EventOf(r.(status := ExecutionStarted), "EXECUTION_STARTED", None),
                                                 EventOf(r, "PROVIDER_REQUESTED", None)]
    ensures TrailFits(after)
  {
    var started := r.(status := ExecutionStarted);
    var first, second := EventOf(started, "EXECUTION_STARTED", None), EventOf(r, "PROVIDER_REQUESTED", None);
    var middle := w.exec.trail + [first];
    assert after.exec.trail == middle + [second];
    TrailStarts(w.exec.trail, started, "EXECUTION_STARTED");
    TrailMoves(middle, started, r, "PROVIDER_REQUESTED", None);
    forall i | 0 <= i < |after.ledger| ensures TrailSpells(after.exec.trail, after.ledger[i]) {
      if i < |w.ledger| {
        TrailUntouched(w.exec.trail, first, w.ledger[i]);
        TrailUntouched(middle, second, w.ledger[i]);
      }
    }
  }

  lemma LedgerMoveKeepsTrail(w: World, after: World, r: Record, stage: string, errorCode: Option<string>)
    requires KeysHeld(w) && TrailFits(w) && r.id < |w.ledger| && CanTransition(w.ledger[r.id].status, r.status)
    requires after.ledger == w.ledger[r.id := r]
    requires after.exec.trail == w.exec.trail + [EventOf(r, stage, errorCode)]
    ensures TrailFits(after)
  {
    forall i | 0 <= i < |after.ledger| ensures TrailSpells(after.exec.trail, after.ledger[i]) {
      if i == r.id {
        TrailMoves(w.exec.trail, w.ledger[i], r, stage, errorCode);
      } else {
        TrailUntouched(w.exec.trail, EventOf(r, stage, errorCode), w.ledger[i]);
      }
    }
  }

  // ---------------------------------------------------------------------------
  // Money
  // ---------------------------------------------------------------------------

  function RecoveredBy(reply: WebhookReply): int {
    if reply.code == ReconciledSuccessfully && reply.result.Some? then reply.result.value.amountRecovered else 0
  }

  /** What the successful reconciliations reported as recovered. */
  function Recovered(replies: seq<WebhookReply>): int {
    if replies == [] then 0 else Recovered(replies[..|replies| - 1]) + RecoveredBy(replies[|replies| - 1])
  }

  function ReconciledAmount(r: Record): int {
    if r.status == Reconciled then r.amountMinor else 0
  }

  function ReconciledTotal(records: seq<Record>): int {
    if records == [] then 0
    else ReconciledTotal(records[..|records| - 1]) + ReconciledAmount(records[|records| - 1])
  }

  function DispatchedTotal(requests: seq<ProviderRequest>): int {
    if requests == [] then 0
    else DispatchedTotal(requests[..|requests| - 1]) + requests[|requests| - 1].amountMinor
  }

  lemma ReconciledAppend(records: seq<Record>, r: Record)
    ensures ReconciledTotal(records + [r]) == ReconciledTotal(records) + ReconciledAmount(r)
  {
  }

  lemma {:induction false} ReconciledUpdate(records: seq<Record>, i: nat, r: Record)
    requires i < |records|
    ensures ReconciledTotal(records[i := r])
         == ReconciledTotal(records) - ReconciledAmount(records[i]) + ReconciledAmount(r)
  {
    var n := |records| - 1;
    if i < n {
      assert records[i := r][..n] == records[..n][i := r];
      ReconciledUpdate(records[..n], i, r);
    } else {
      assert records[i := r][..n] == records[..n];
    }
  }

  lemma RecoveredAppend(replies: seq<WebhookReply>, reply: WebhookReply)
    ensures Recovered(replies + [reply]) == Recovered(replies) + RecoveredBy(reply)
  {
  }

  ghost predicate MoneyBalances(w: World) {
    Recovered(w.replies) == ReconciledTotal(w.exec.records) == ReconciledTotal(w.ledger)
  }

  lemma ChangeKeepsMoney(w: World, after: World, c: Change)
    requires Rewrites(w, c) && MoneyBalances(w) && Applies(w, after, c)
    ensures MoneyBalances(after)
  {
    match c
    case Quiet =>
    case Died(id) =>
    case HeldBack(r) =>
      ReconciledAppend(w.exec.records, r);
      ReconciledAppend(w.ledger, r);
    case Dispatched(r) =>
      ReconciledAppend(w.ledger, r);
    case Settled(r, _, _) =>
      ReconciledAppend(w.exec.records, r);
      ReconciledUpdate(w.ledger, r.id, r);
    case Moved(k, r, reply) =>
      ReconciledUpdate(w.exec.records, k, r);
      ReconciledUpdate(w.ledger, r.id, r);
      RecoveredAppend(w.replies, reply);
  }

  lemma {:induction false} ReconciledAtMostDispatched(ledger: seq<Record>)
    requires forall i :: 0 <= i < |ledger| ==> ledger[i].amountMinor > 0
    ensures 0 <= ReconciledTotal(ledger) <= DispatchedTotal(RequestsOf(ledger))
  {
    if ledger != [] {
      var n := |ledger| - 1;
      ReconciledAtMostDispatched(ledger[..n]);
      var before, r := RequestsOf(ledger[..n]), ledger[n];
      if r.status != Deferred {
        assert (before + [RequestFor(r)])[..|before|] == before;
      } else {
        assert before + [] == before;
      }
    }
  }

  // ---------------------------------------------------------------------------
  // Runs
  // ---------------------------------------------------------------------------

  ghost predicate Sound(w: World) {
    KeysHeld(w) && StatusesFit(w) && RequestsFit(w) && TrailFits(w) && MoneyBalances(w)
  }

  lemma StepKeepsSound(config: ExecutionConfig, w: World, e: ExecEvent) returns (c: Change)
    requires Sound(w)
    ensures Sound(StepWorld(config, w, e)) && Applies(w, StepWorld(config, w, e), c)
  {
    c := StepChange(config, w, e);
    var after := StepWorld(config, w, e);
    ChangeKeepsKeys(w, after, c);
    ChangeKeepsStatuses(w, after, c);
    ChangeRewrites(w, after, c);
    ChangeKeepsRequests(w, after, c);
    ChangeKeepsTrail(w, after, c);
    ChangeKeepsMoney(w, after, c);
  }

  lemma {:induction false} SoundAlways(config: ExecutionConfig, events: seq<ExecEvent>)
    ensures Sound(RunWorld(config, events))
  {
    if events != [] {
      SoundAlways(config, events[..|events| - 1]);
      var _ := StepKeepsSound(config, RunWorld(config, events[..|events| - 1]), events[|events| - 1]);
    }
  }

  /** No key is both stored and in flight, and the provider gets at most one request per
      key: one for each execution that was not held back, in the order they began. */
  lemma {:induction false} KeysAreDispatchedAtMostOnce(config: ExecutionConfig, events: seq<ExecEvent>)
    ensures var st := RunWorld(config, events).exec;
            && (forall k :: 0 <= k < |st.records| ==> st.records[k].key !in st.inFlight)
            && (forall j, k :: 0 <= j < k < |st.records| ==> st.records[j].key != st.records[k].key)
            && (forall p, q :: 0 <= p < q < |st.requests| ==> st.requests[p].key != st.requests[q].key)
            && st.requests == RequestsOf(RunWorld(config, events).ledger)
  {
    SoundAlways(config, events);
    RegistryKeysDiffer(RunWorld(config, events));
  }

  lemma RegistryKeysDiffer(w: World)
    requires KeysHeld(w) && StatusesFit(w) && RequestsFit(w)
    ensures forall k :: 0 <= k < |w.exec.records| ==> w.exec.records[k].key !in w.exec.inFlight
    ensures forall j, k :: 0 <= j < k < |w.exec.records| ==> w.exec.records[j].key != w.exec.records[k].key
    ensures forall p, q :: 0 <= p < q < |w.exec.requests| ==> w.exec.requests[p].key != w.exec.requests[q].key
  {
    forall k | 0 <= k < |w.exec.records| ensures w.exec.records[k].key !in w.exec.inFlight {
      StoredIsInLedger(w, k);
    }
    forall p, q | 0 <= p < q < |w.exec.requests| ensures w.exec.requests[p].key != w.exec.requests[q].key {
      RequestKeysDiffer(w.ledger, p, q);
    }
  }

  /** A caller whose key was taken before gets the conflict error while that execution is
      in flight, and that execution's own record afterwards; a new key always proceeds. */
  lemma {:induction false} LosersGetTheRecord(config: ExecutionConfig, events: seq<ExecEvent>, req: ExecutionRequest,
                                              key: string)
    ensures var w := RunWorld(config, events);
            var outcome := TakeKey(w.exec, req, key, |w.ledger|).1;
            && (forall i :: 0 <= i < |w.ledger| && w.ledger[i].key == key ==>
                  outcome == if Open(w, i) then Conflict else Existing(w.ledger[i]))
            && (!Taken(w.ledger, key) <==> outcome.Held? || outcome.Awaiting?)
  {
    SoundAlways(config, events);
    TakenKeyAnswers(RunWorld(config, events), req, key);
  }

  lemma TakenKeyAnswers(w: World, req: ExecutionRequest, key: string)
    requires KeysHeld(w)
    ensures var outcome := TakeKey(w.exec, req, key, |w.ledger|).1;
            && (forall i :: 0 <= i < |w.ledger| && w.ledger[i].key == key ==>
                  outcome == if Open(w, i) then Conflict else Existing(w.ledger[i]))
            && (!Taken(w.ledger, key) <==> outcome.Held? || outcome.Awaiting?)
  {
  }

  /** `later` continues `earlier`: executions keep their id, key, target and amount, stored
      records keep their place, and what was held back or abandoned stays so. */
  ghost predicate Continues(earlier: World, later: World) {
    && LedgerContinues(earlier.ledger, later.ledger)
    && |earlier.exec.records| <= |later.exec.records|
    && (forall k :: 0 <= k < |earlier.exec.records| ==> later.exec.records[k].id == earlier.exec.records[k].id)
    && earlier.lost <= later.lost
  }

  ghost predicate LedgerContinues(earlier: seq<Record>, later: seq<Record>) {
    && |earlier| <= |later|
    && (forall i :: 0 <= i < |earlier| ==> SameExecution(earlier[i], later[i]))
    && (forall i :: 0 <= i < |earlier| && earlier[i].status == Deferred ==> later[i] == earlier[i])
  }

  lemma ContinuesTransitive(a: World, b: World, c: World)
    requires Continues(a, b) && Continues(b, c)
    ensures Continues(a, c)
  {
  }

  lemma {:induction false} StepContinues(config: ExecutionConfig, w: World, e: ExecEvent)
    requires Sound(w)
    ensures Continues(w, StepWorld(config, w, e))
  {
    var c := StepChange(config, w, e);
    ChangeRewrites(w, StepWorld(config, w, e), c);
    ChangeContinues(w, StepWorld(config, w, e), c);
  }

  lemma {:induction false} RunSplits(config: ExecutionConfig, earlier: seq<ExecEvent>, later: seq<ExecEvent>)
    requires later != []
    ensures RunWorld(config, earlier + later)
         == StepWorld(config, RunWorld(config, earlier + later[..|later| - 1]), later[|later| - 1])
  {
    LastOfBoth(earlier, later);
  }

  /** No continuation of a run replaces a record or rewrites an execution. */
  lemma {:induction false} RecordsAreNeverReplaced(config: ExecutionConfig, earlier: seq<ExecEvent>,
                                                   later: seq<ExecEvent>)
    ensures Continues(RunWorld(config, earlier), RunWorld(config, earlier + later))
  {
    if later == [] {
      assert earlier + later == earlier;
    } else {
      var sofar := earlier + later[..|later| - 1];
      RecordsAreNeverReplaced(config, earlier, later[..|later| - 1]);
      RunSplits(config, earlier, later);
      SoundAlways(config, sofar);
      StepContinues(config, RunWorld(config, sofar), later[|later| - 1]);
      ContinuesTransitive(RunWorld(config, earlier), RunWorld(config, sofar), RunWorld(config, earlier + later));
    }
  }

  lemma ChangeContinues(w: World, after: World, c: Change)
    requires Rewrites(w, c) && Applies(w, after, c)
    ensures Continues(w, after)
  {
  }

  /** An execution whose task died keeps its key in flight for good: every later request
      under that key is refused with the conflict error, and none reaches the provider. */
  lemma {:induction false} AbandonedKeysStayLocked(config: ExecutionConfig, earlier: seq<ExecEvent>,
                                                   later: seq<ExecEvent>,
                                id: nat, req: ExecutionRequest)
    requires id in RunWorld(config, earlier).lost
    ensures var w := RunWorld(config, earlier + later);
            id < |w.ledger| && TakeKey(w.exec, req, w.ledger[id].key, |w.ledger|).1 == Conflict
  {
    RecordsAreNeverReplaced(config, earlier, later);
    SoundAlways(config, earlier + later);
    var w := RunWorld(config, earlier + later);
    assert Open(w, id);
    TakenKeyAnswers(w, req, w.ledger[id].key);
  }

  /** The audit trail of every execution is a legal path from its start to its current
      status, and everything in the registry has one of five statuses. */
  lemma {:induction false} TrailsAreLegalPaths(config: ExecutionConfig, events: seq<ExecEvent>)
    ensures var w := RunWorld(config, events);
            && (forall i :: 0 <= i < |w.ledger| ==> TrailSpells(w.exec.trail, w.ledger[i]))
            && (forall k :: 0 <= k < |w.exec.records| ==>
                  w.exec.records[k].status in STORED_STATUSES && TrailSpells(w.exec.trail, w.exec.records[k]))
  {
    SoundAlways(config, events);
    var w := RunWorld(config, events);
    forall k | 0 <= k < |w.exec.records|
      ensures w.exec.records[k].status in STORED_STATUSES && TrailSpells(w.exec.trail, w.exec.records[k])
    {
      StoredStatus(w, k);
    }
  }

  lemma StoredStatus(w: World, k: nat)
    requires Sound(w) && k < |w.exec.records|
    ensures w.exec.records[k].status in STORED_STATUSES && TrailSpells(w.exec.trail, w.exec.records[k])
  {
  }

  /** Whatever the interleaving, the duplicates and the handlers: the money reported as
      recovered is exactly the money of the records now reconciled, and never more than
      what was dispatched. */
  lemma {:induction false} RecoveredMoneyIsConserved(config: ExecutionConfig, events: seq<ExecEvent>)
    ensures var w := RunWorld(config, events);
            0 <= Recovered(w.replies) == ReconciledTotal(w.exec.records) <= DispatchedTotal(w.exec.requests)
  {
    SoundAlways(config, events);
    ReconciledAtMostDispatched(RunWorld(config, events).ledger);
  }
}
