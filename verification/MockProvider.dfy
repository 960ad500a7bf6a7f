/** The deterministic mock provider, and what its references are good for: a webhook can
    never be matched to the wrong execution. */
module MockProvider {
  import opened Identity
  import opened Domain
  import opened ExecutionSpec
  import opened ExecutionRuns

  function MockReference(key: string): string {
    "pay_mock_" + Text(Named(key))
  }

  lemma ReferencesDiffer(a: string, b: string)
    requires MockReference(a) == MockReference(b)
    ensures a == b
  {
    hide Text;
    var s, t := Text(Named(a)), Text(Named(b));
    assert s == ("pay_mock_" + s)[9..] == ("pay_mock_" + t)[9..] == t;
    TextInjective(Named(a), Named(b));
  }

  function MockResponse(status: NormalizedStatus, key: string): ProviderOutcome {
    match status
    case ProviderSuccess => Responded(Some(MockReference(key)), status, None)
    case ProviderDeclined => Responded(Some(MockReference(key)), status, Some("BAD_REQUEST_PAYMENT_DECLINED"))
    case ProviderTimeout => Responded(None, status, Some("GATEWAY_TIMEOUT"))
    case ProviderNetworkError => Responded(None, status, Some("CONNECTION_REFUSED"))
    case ProviderUnknown => Responded(Some(MockReference(key)), status, Some("AMBIGUOUS_PROVIDER_STATE"))
    case _ => Responded(Some(MockReference(key)), status, None)
  }

  /** What the mock answers for a configured outcome: that outcome, a reference unless the
      request was lost on the way, and an error unless there was none. */
  lemma ResponseExactly(status: NormalizedStatus, key: string)
    ensures var r := MockResponse(status, key);
            && r.Responded? && r.normalized == status
            && r.reference == (if status in {ProviderTimeout, ProviderNetworkError} then None
               else Some(MockReference(key)))
            && (r.errorCode == Some("BAD_REQUEST_PAYMENT_DECLINED") <==> status == ProviderDeclined)
            && (r.errorCode == Some("GATEWAY_TIMEOUT") <==> status == ProviderTimeout)
            && (r.errorCode == Some("CONNECTION_REFUSED") <==> status == ProviderNetworkError)
            && (r.errorCode == Some("AMBIGUOUS_PROVIDER_STATE") <==> status == ProviderUnknown)
            && (r.errorCode == None <==>
                  status in {ProviderSuccess, ProviderValidationError, ProviderAuthenticationError,
                      ProviderRateLimited})
  {
    hide MockReference;
  }

  class MockPaymentProvider {
    const defaultOutcome: NormalizedStatus
    var requests: map<string, ProviderRequest>
    var responses: map<string, ProviderOutcome>
    var overrides: map<Uuid, NormalizedStatus>

    constructor (defaultOutcome: NormalizedStatus)
      ensures this.defaultOutcome == defaultOutcome && requests == map[] && responses == map[] && overrides == map[]
    {
      this.defaultOutcome := defaultOutcome;
      requests, responses, overrides := map[], map[], map[];
    }

    method SetTargetOutcome(target: Uuid, outcome: NormalizedStatus)
      modifies this`overrides
      ensures overrides == old(overrides)[target := outcome]
    {
      overrides := overrides[target := outcome];
    }

    function OutcomeFor(target: Uuid): NormalizedStatus
      reads this`overrides
    {
      if target in overrides then overrides[target] else defaultOutcome
    }

    method ExecuteRecovery(request: ProviderRequest) returns (response: ProviderOutcome)
      modifies this`requests, this`responses
      ensures response
              == MockResponse(if request.targetId in overrides then overrides[request.targetId] else defaultOutcome,
                                       request.key)
      ensures requests == old(requests)[request.key := request]
      ensures responses
           == if response.reference.Some? then old(responses)[response.reference.value := response] else old(responses)
    {
      requests := requests[request.key := request];
      var outcome := OutcomeFor(request.targetId);
      var reference := MockReference(request.key);
      if outcome == ProviderSuccess {
        response := Responded(Some(reference), ProviderSuccess, None);
      } else if outcome == ProviderDeclined {
        response := Responded(Some(reference), ProviderDeclined, Some("BAD_REQUEST_PAYMENT_DECLINED"));
      } else if outcome == ProviderTimeout {
        response := Responded(None, ProviderTimeout, Some("GATEWAY_TIMEOUT"));
      } else if outcome == ProviderNetworkError {
        response := Responded(None, ProviderNetworkError, Some("CONNECTION_REFUSED"));
      } else if outcome == ProviderUnknown {
        response := Responded(Some(reference), ProviderUnknown, Some("AMBIGUOUS_PROVIDER_STATE"));
      } else {
        response := Responded(Some(reference), outcome, None);
      }
      if response.reference.Some? {
        responses := responses[response.reference.value := response];
      }
    }

    /** A query settles an ambiguous transaction as a success; later queries repeat the answer. */
    method QueryRecoveryStatus(reference: string) returns (response: ProviderOutcome)
      requires forall r :: r in responses ==> responses[r].Responded?
      modifies this`responses
      ensures reference !in old(responses) ==>
                response == Responded(Some(reference), ProviderValidationError, Some("TRANSACTION_NOT_FOUND"))
                && responses == old(responses)
      ensures reference in old(responses) ==>
                && responses == old(responses)[reference := response]
                && response == if old(responses)[reference].normalized == ProviderUnknown
                               then Responded(Some(reference), ProviderSuccess, None) else old(responses)[reference]
    {
      if reference in responses {
        var existing := responses[reference];
        if existing.normalized == ProviderUnknown {
          response := Responded(Some(reference), ProviderSuccess, None);
          responses := responses[reference := response];
          return;
        }
        return existing;
      }
      return Responded(Some(reference), ProviderValidationError, Some("TRANSACTION_NOT_FOUND"));
    }
  }

  // ---------------------------------------------------------------------------
  // Runs against the mock provider
  // ---------------------------------------------------------------------------

  /** The answer that arrives is the mock's for that execution's key, or an exception. */
  predicate FromMock(w: World, e: ExecEvent) {
    e.ProviderAnswers? && e.id < |w.ledger| && e.outcome.Responded? ==>
      e.outcome == MockResponse(e.outcome.normalized, w.ledger[e.id].key)
  }

  ghost predicate AllFromMock(config: ExecutionConfig, events: seq<ExecEvent>) {
    forall i :: 0 <= i < |events| ==> FromMock(RunWorld(config, events[..i]), events[i])
  }

  ghost predicate ReferencesFit(ledger: seq<Record>) {
    forall i :: 0 <= i < |ledger| && ledger[i].reference.Some? ==>
      ledger[i].reference.value == MockReference(ledger[i].key)
  }

  lemma StepKeepsReferences(config: ExecutionConfig, w: World, e: ExecEvent)
    requires ReferencesFit(w.ledger) && FromMock(w, e)
    ensures ReferencesFit(StepWorld(config, w, e).ledger)
  {
    hide MockReference, HandleWebhook, Finish, Revalidate, RequestKey;
    match e
    case BeginExecution(req) =>
      TakeKeyShape(w.exec, req, RequestKey(config, req), |w.ledger|);
      hide TakeKey;
    case ProviderAnswers(id, outcome) =>
      if id < |w.ledger| && outcome.Responded? {
        ResponseReference(outcome.normalized, w.ledger[id].key);
      }
    case TaskDies(_) =>
    case DeliverWebhook(handler, webhook) =>
      WebhookKeepsReferences(w, handler, webhook);
  }

  lemma WebhookKeepsReferences(w: World, handler: nat, webhook: Webhook)
    requires ReferencesFit(w.ledger)
    ensures ReferencesFit(AfterWebhook(w, handler, webhook).ledger)
  {
  }

  lemma ResponseReference(status: NormalizedStatus, key: string)
    ensures var r := MockResponse(status, key);
            r.Responded? && (r.reference.Some? ==> r.reference.value == MockReference(key))
  {
  }

  lemma {:induction false} ReferencesFitAlways(config: ExecutionConfig, events: seq<ExecEvent>)
    requires AllFromMock(config, events)
    ensures ReferencesFit(RunWorld(config, events).ledger)
  {
    if events != [] {
      hide ReferencesFit, StepWorld, FromMock;
      var n := |events| - 1;
      forall i | 0 <= i < n ensures FromMock(RunWorld(config, events[..n][..i]), events[..n][i]) {
        assert events[..n][..i] == events[..i];
        assert FromMock(RunWorld(config, events[..i]), events[i]);
      }
      ReferencesFitAlways(config, events[..n]);
      assert FromMock(RunWorld(config, events[..n]), events[n]);
      StepKeepsReferences(config, RunWorld(config, events[..n]), events[n]);
    } else {
      NothingBegun();
    }
  }

  lemma NothingBegun()
    ensures ReferencesFit(EMPTY_WORLD.ledger)
  {
  }

  /** Against the mock provider no two registry records ever carry the same reference, so
      the record that a webhook finds does not depend on the order of the registry. */
  lemma {:induction false} ReferencesNameOneRecord(config: ExecutionConfig, events: seq<ExecEvent>, j: nat, k: nat)
    requires AllFromMock(config, events)
    requires j < k < |RunWorld(config, events).exec.records|
    ensures var records := RunWorld(config, events).exec.records;
            records[j].reference.Some? ==> records[j].reference != records[k].reference
  {
    hide RunWorld, AllFromMock, MockReference, StatusesFit, RequestsFit, TrailFits, MoneyBalances;
    ReferencesFitAlways(config, events);
    SoundAlways(config, events);
    var w := RunWorld(config, events);
    var a, b := w.exec.records[j], w.exec.records[k];
    assert w.ledger[a.id] == a && w.ledger[b.id] == b && a.id != b.id;
    if a.reference.Some? && a.reference == b.reference {
      ReferencesDiffer(a.key, b.key);
    }
  }
}
