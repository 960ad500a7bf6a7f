/** The whole system over every run, store clears included. Clearing is meant for isolating
    unit tests; nothing here assumes that it does not happen. What survives is one dispatch
    per target and action, and a target is dispatched twice exactly when a request for it
    with an action never executed before passes the recheck. */
module EveryRun {
  import opened Identity
  import opened Domain
  import opened GatewaySpec
  import opened GatewayRuns
  import opened StateMachine
  import opened ExecutionSpec
  import opened ExecutionRuns
  import opened EndToEnd

  // ---------------------------------------------------------------------------
  // What holds in every run
  // ---------------------------------------------------------------------------

  predicate Identified(issue: Issue) {
    issue.result.decision == Approved ==> issue.proposal.proposalId == IdFor(KeyOf(issue.target))
  }

  predicate Keyed(config: ExecutionConfig, r: Record) {
    r.key == KeyFor(config, TargetOf(r), r.action)
  }

  /** Approvals name their target, and every execution stands under the key of its target
      and action. No stored verdict is needed for that. */
  ghost predicate SystemKeyed(config: ExecutionConfig, s: System) {
    && Sound(s.world)
    && (forall i :: 0 <= i < |s.issued| ==> Identified(s.issued[i]))
    && (forall k :: 0 <= k < |s.world.ledger| ==> Keyed(config, s.world.ledger[k]))
  }

  predicate Accepted(config: ExecutionConfig, issue: Issue) {
    Revalidate(config, issue.proposal, issue.target, issue.result).None?
  }

  lemma {:induction false} CallIdentifies(env: Env, gate: GatewayState, call: Call)
    ensures Identified(Issue(call.proposal, call.target, Evaluate(env, gate, call).1))
  {
    hide Evaluate, IdFor;
    if Evaluate(env, gate, call).1.decision == Approved {
      IntakeOfApproved(env, gate, call);
    }
  }

  /** Beginning an accepted request adds an execution of its target and action exactly when
      there is none yet; otherwise, and for a request that is not accepted, nothing changes. */
  lemma {:induction false} BeginExactly(config: ExecutionConfig, s: System, i: nat) returns (r: Record)
    requires SystemKeyed(config, s) && i < |s.issued|
    ensures var issue, after := s.issued[i], AfterBegin(config, s.world, RequestOf(s.issued[i]));
            if Accepted(config, issue) && !Executed(s.world.ledger, KeyOf(issue.target), issue.proposal.action) then
              && after.ledger == s.world.ledger + [r] && Keyed(config, r)
              && TargetOf(r) == KeyOf(issue.target) && r.action == issue.proposal.action
              && r.amountMinor == issue.target.amountMinor
              && after.exec.requests
                 == s.world.exec.requests + (if r.action == RetryLater then [] else [RequestFor(r)])
            else after == s.world
  {
    hide IdFor, DeriveExecutionKey, KeysHeld, StatusesFit, RequestsFit, TrailFits, MoneyBalances, Executed;
    var issue := s.issued[i];
    var req, id := RequestOf(issue), |s.world.ledger|;
    var key := RequestKey(config, req);
    r := NewRecord(req, key, id, if req.proposal.action == RetryLater then Deferred else ProviderRequested);
    if Accepted(config, issue) {
      assert issue.result.decision == Approved && Identified(issue);
      KeyTakenExactly(config, s, KeyOf(issue.target), issue.proposal.action);
      TakeKeyShape(s.world.exec, req, key, id);
      TakenKeyAnswers(s.world, req, key);
      hide TakeKey;
    }
  }

  /** Some execution of this target and action has begun, whatever became of it. */
  predicate Executed(ledger: seq<Record>, key: TargetKey, action: Action) {
    exists k :: 0 <= k < |ledger| && TargetOf(ledger[k]) == key && ledger[k].action == action
  }

  lemma {:induction false} KeyTakenExactly(config: ExecutionConfig, s: System, key: TargetKey, action: Action)
    requires SystemKeyed(config, s)
    ensures Taken(s.world.ledger, KeyFor(config, key, action)) <==> Executed(s.world.ledger, key, action)
  {
    hide Sound, KeyFor;
    var ledger := s.world.ledger;
    forall k | 0 <= k < |ledger|
      ensures ledger[k].key == KeyFor(config, key, action) <==> TargetOf(ledger[k]) == key && ledger[k].action == action
    {
      assert Keyed(config, ledger[k]);
      if ledger[k].key == KeyFor(config, key, action) {
        KeyForIdentifiesTarget(config, TargetOf(ledger[k]), ledger[k].action, key, action);
      }
    }
  }

  lemma {:induction false} WorldKeepsKeyed(config: ExecutionConfig, s: System, e: ExecEvent)
    requires SystemKeyed(config, s) && !e.BeginExecution?
    ensures SystemKeyed(config, s.(world := StepWorld(config, s.world, e)))
    ensures StepWorld(config, s.world, e).exec.requests == s.world.exec.requests
  {
    hide Applies;
    var after := StepWorld(config, s.world, e);
    var c := StepKeepsSound(config, s.world, e);
    LaterStepsOnlyUpdate(config, s.world, e);
    hide Sound, StepWorld, KeyFor;
    forall k | 0 <= k < |after.ledger| ensures Keyed(config, after.ledger[k]) {
      assert SameExecution(s.world.ledger[k], after.ledger[k]);
    }
  }

  lemma {:induction false} GatewayKeepsKeyed(env: Env, config: ExecutionConfig, s: System, event: Event)
    requires SystemKeyed(config, s)
    ensures SystemKeyed(config, StepSystem(env, config, s, AtGateway(event)))
    ensures StepSystem(env, config, s, AtGateway(event)).world == s.world
  {
    hide Step, Evaluate, Sound, Identified, Keyed;
    if event.EvaluateCall? {
      CallIdentifies(env, s.gate, event.call);
    }
  }

  lemma {:induction false} ExecuteKeepsKeyed(env: Env, config: ExecutionConfig, s: System, i: nat)
    requires SystemKeyed(config, s)
    ensures SystemKeyed(config, StepSystem(env, config, s, ExecuteIssued(i)))
  {
    hide Sound, Identified, Keyed, AfterBegin, Applies, Executed, Accepted;
    if i < |s.issued| {
      var c := StepKeepsSound(config, s.world, BeginExecution(RequestOf(s.issued[i])));
      var r := BeginExactly(config, s, i);
    }
  }

  lemma {:induction false} StepKeepsKeyed(env: Env, config: ExecutionConfig, s: System, e: SystemEvent)
    requires SystemKeyed(config, s)
    ensures SystemKeyed(config, StepSystem(env, config, s, e))
    ensures !e.ExecuteIssued? ==>
              StepSystem(env, config, s, e).world.exec.requests == s.world.exec.requests
  {
    hide SystemKeyed, Evaluate, Step, StepWorld;
    match e
    case AtGateway(event) => GatewayKeepsKeyed(env, config, s, event);
    case ExecuteIssued(i) => ExecuteKeepsKeyed(env, config, s, i);
    case AnswerArrives(id, outcome) => WorldKeepsKeyed(config, s, ProviderAnswers(id, outcome));
    case TaskAbandoned(id) => WorldKeepsKeyed(config, s, TaskDies(id));
    case WebhookArrives(handler, webhook) => WorldKeepsKeyed(config, s, DeliverWebhook(handler, webhook));
  }

  lemma {:induction false} SystemKeyedAlways(env: Env, config: ExecutionConfig, events: seq<SystemEvent>)
    ensures SystemKeyed(config, RunSystem(env, config, events))
  {
    if events == [] {
      SoundAlways(config, []);
    } else {
      hide SystemKeyed, StepSystem;
      SystemKeyedAlways(env, config, events[..|events| - 1]);
      StepKeepsKeyed(env, config, RunSystem(env, config, events[..|events| - 1]), events[|events| - 1]);
    }
  }

  // ---------------------------------------------------------------------------
  // One dispatch per target and action
  // ---------------------------------------------------------------------------

  /** In every run, clears included, no two requests share target and action. */
  lemma {:induction false} OneDispatchPerTargetAndAction(env: Env, config: ExecutionConfig, events: seq<SystemEvent>,
                                                         p: nat, q: nat)
    requires p < q < |RunSystem(env, config, events).world.exec.requests|
    ensures var requests := RunSystem(env, config, events).world.exec.requests;
            TargetOfRequest(requests[p]) != TargetOfRequest(requests[q]) || requests[p].action != requests[q].action
  {
    hide RunSystem, KeyFor, StatusesFit, TrailFits, MoneyBalances;
    SystemKeyedAlways(env, config, events);
    var ledger := RunSystem(env, config, events).world.ledger;
    var i := RequestFromLedger(ledger, p);
    var j := RequestFromLedger(ledger, q);
    assert Keyed(config, ledger[i]) && Keyed(config, ledger[j]);
    RequestKeysDiffer(ledger, p, q);
  }

  /** In every run, executing an issue sends a request exactly when the recheck accepts it,
      its action is not held back, and no execution of its target and action has begun. It
      then sends one, for that target, action and amount. */
  lemma {:induction false} SendsExactlyWhen(env: Env, config: ExecutionConfig, events: seq<SystemEvent>, i: nat)
    requires i < |RunSystem(env, config, events).issued|
    ensures var s := RunSystem(env, config, events);
            var issue, before := s.issued[i], s.world.exec.requests;
            var after := StepSystem(env, config, s, ExecuteIssued(i)).world.exec.requests;
            if Sends(config, s, i) then
              && |after| == |before| + 1 && after[..|before|] == before
              && TargetOfRequest(after[|before|]) == KeyOf(issue.target)
              && after[|before|].action == issue.proposal.action
              && after[|before|].amountMinor == issue.target.amountMinor
            else after == before
  {
    hide RunSystem, SystemKeyed, AfterBegin, Keyed, Accepted, Executed;
    SystemKeyedAlways(env, config, events);
    var r := BeginExactly(config, RunSystem(env, config, events), i);
  }

  predicate Sends(config: ExecutionConfig, s: System, i: nat)
    requires i < |s.issued|
  {
    var issue := s.issued[i];
    && Accepted(config, issue) && issue.proposal.action != RetryLater
    && !Executed(s.world.ledger, KeyOf(issue.target), issue.proposal.action)
  }

  // ---------------------------------------------------------------------------
  // One dispatch per target
  // ---------------------------------------------------------------------------

  predicate OncePerTarget(requests: seq<ProviderRequest>) {
    forall p, q :: 0 <= p < q < |requests| ==> TargetOfRequest(requests[p]) != TargetOfRequest(requests[q])
  }

  predicate Dispatched(requests: seq<ProviderRequest>, key: TargetKey) {
    exists q :: 0 <= q < |requests| && TargetOfRequest(requests[q]) == key
  }

  /** The event that dispatches a target again: an accepted request for a target already
      dispatched, under an action that was never executed for it. */
  predicate DispatchesAgain(config: ExecutionConfig, s: System, e: SystemEvent) {
    e.ExecuteIssued? && e.i < |s.issued| && Sends(config, s, e.i)
    && Dispatched(s.world.exec.requests, KeyOf(s.issued[e.i].target))
  }

  lemma {:induction false} StepOncePerTarget(env: Env, config: ExecutionConfig, events: seq<SystemEvent>,
                                             e: SystemEvent)
    ensures var s := RunSystem(env, config, events);
            OncePerTarget(StepSystem(env, config, s, e).world.exec.requests)
            <==> OncePerTarget(s.world.exec.requests) && !DispatchesAgain(config, s, e)
  {
    hide RunSystem, StepSystem, SystemKeyed, Sends;
    var s := RunSystem(env, config, events);
    SystemKeyedAlways(env, config, events);
    if e.ExecuteIssued? && e.i < |s.issued| {
      SendsExactlyWhen(env, config, events, e.i);
      if Sends(config, s, e.i) {
        OneMoreRequest(s.world.exec.requests, StepSystem(env, config, s, e).world.exec.requests);
      }
    } else {
      IdleEventsSendNothing(env, config, s, e);
    }
  }

  lemma {:induction false} IdleEventsSendNothing(env: Env, config: ExecutionConfig, s: System, e: SystemEvent)
    requires SystemKeyed(config, s) && !(e.ExecuteIssued? && e.i < |s.issued|)
    ensures StepSystem(env, config, s, e).world.exec.requests == s.world.exec.requests
  {
    StepKeepsKeyed(env, config, s, e);
    hide SystemKeyed, Evaluate, Step, StepWorld;
  }

  lemma OneMoreRequest(before: seq<ProviderRequest>, after: seq<ProviderRequest>)
    requires |after| == |before| + 1 && after[..|before|] == before
    ensures OncePerTarget(after) <==> OncePerTarget(before) && !Dispatched(before, TargetOfRequest(after[|before|]))
  {
    assert forall q :: 0 <= q < |before| ==> after[q] == before[q];
    if OncePerTarget(after) {
      forall p, q | 0 <= p < q < |before| ensures TargetOfRequest(before[p]) != TargetOfRequest(before[q]) {
        assert TargetOfRequest(after[p]) != TargetOfRequest(after[q]);
      }
      forall q | 0 <= q < |before| ensures TargetOfRequest(before[q]) != TargetOfRequest(after[|before|]) {
        assert TargetOfRequest(after[q]) != TargetOfRequest(after[|before|]);
      }
    }
  }

  /** The event `events[k]` dispatches again, at the state it meets. */
  predicate DispatchesAgainAt(env: Env, config: ExecutionConfig, events: seq<SystemEvent>, k: nat)
    requires k < |events|
  {
    DispatchesAgain(config, RunSystem(env, config, events[..k]), events[k])
  }

  /** A run, clears included, dispatches every target at most once if and only if none of
      its events is an accepted request for a dispatched target under an unused action. */
  lemma {:induction false} OncePerTargetExactly(env: Env, config: ExecutionConfig, events: seq<SystemEvent>)
    ensures OncePerTarget(RunSystem(env, config, events).world.exec.requests)
            <==> forall k :: 0 <= k < |events| ==> !DispatchesAgainAt(env, config, events, k)
  {
    hide StepSystem, DispatchesAgain, OncePerTarget;
    if events == [] {
      NothingSent(env, config);
    } else {
      var n := |events| - 1;
      OncePerTargetExactly(env, config, events[..n]);
      StepOncePerTarget(env, config, events[..n], events[n]);
      PrefixDispatches(env, config, events);
      assert DispatchesAgainAt(env, config, events, n)
        <==> DispatchesAgain(config, RunSystem(env, config, events[..n]), events[n]);
      hide DispatchesAgainAt;
      if forall k :: 0 <= k < n ==> !DispatchesAgainAt(env, config, events[..n], k) {
        forall k | 0 <= k < n ensures !DispatchesAgainAt(env, config, events, k) {
          assert !DispatchesAgainAt(env, config, events[..n], k);
        }
      } else {
        var k :| 0 <= k < n && DispatchesAgainAt(env, config, events[..n], k);
        assert DispatchesAgainAt(env, config, events, k);
      }
    }
  }

  lemma NothingSent(env: Env, config: ExecutionConfig)
    ensures OncePerTarget(RunSystem(env, config, []).world.exec.requests)
  {
  }

  lemma {:induction false} PrefixDispatches(env: Env, config: ExecutionConfig, events: seq<SystemEvent>)
    requires events != []
    ensures forall k :: 0 <= k < |events| - 1 ==>
              (DispatchesAgainAt(env, config, events[..|events| - 1], k) <==> DispatchesAgainAt(env, config, events, k))
  {
    hide RunSystem, DispatchesAgain;
    forall k | 0 <= k < |events| - 1
      ensures DispatchesAgainAt(env, config, events[..|events| - 1], k) <==> DispatchesAgainAt(env, config, events, k)
    {
      assert events[..|events| - 1][..k] == events[..k];
    }
  }
}
