# RecoverAI: verified model of the recovery pipeline

RecoverAI decides whether a failed payment or a past-due subscription may be recovered
automatically, and carries the recovery out. This project models its decision agent, its
safety gateway, its execution layer with webhooks, its evaluation reports and its synthetic
datasets, and proves what the pipeline is relied on for.

## The system and its main theorems

**Safety gateway.** `evaluate_proposal` runs ten staged checks over a two-index decision store,
a sliding-window rate limiter, a kill switch and an append-only audit log. The class in
`Gateway.dfy` is proved against the function `Evaluate` (`GatewaySpec.dfy`). `GatewayRuns.dfy`
proves, for every run of calls and operator actions: the pipeline stops at exactly the first
stage whose demand fails and approves exactly when none does; the two indexes always describe
the same decisions; the first verdict for a target is sticky; the audit log rebuilds the store
and, after any pruning, answers for the limiter; no window is ever overfull.

**Execution layer.** `execute_recovery` is split at its `await`: a *begin* step (recheck, take
the key, dispatch), a *finish* step (map the answer, complete the record), and the death of the
waiting coroutine in between. Webhooks are single steps of any number of handlers that share one registry and
one trail. Records are shared mutable objects in `Execution.dfy`; `ExecutionRuns.dfy` proves, for
every interleaving: keys are dispatched at most once, losers get the record or the conflict,
abandoned keys stay locked, status trails are legal paths, and recovered money is exactly the
money of the reconciled records and at most what was dispatched. `Answers.dfy` follows one
execution: what it keeps of its request and of the provider's answer, and by which events it can be
reconciled. `Webhooks.dfy` says exactly what each delivery answers and changes.

**End to end.** `EndToEnd.dfy` composes both: every execution request carries the proposal,
target and result of one gateway call. In every run without store clears each target is sent to
the provider at most once, with the one action and amount that all its approvals share, and the
money sent is exactly the money the audit log shows as approved for those targets.
`Counterexample.dfy` shows by a concrete run that clearing the store breaks this.
`EveryRun.dfy` proves what holds in every run, clears included: no two requests share target and
action; when exactly a request is sent; and that a run dispatches each target at most once if and
only if no accepted request meets a dispatched target under an action never executed for it.
Clearing is documented as meant for isolating unit tests (`agents/gateway/idempotency.py:112`).

**Decision agent.** `Decision.dfy` gives the precedence chain as independent conditions and the
gateway's exact verdict on everything the agent proposes.

**Reports.** `GatewayEvaluation.dfy`, `Metrics.dfy`, `Rates.dfy` and `ExecutionAccounting.dfy`
prove the counting loops against totals over their inputs, and then conservation, order
independence and the rounding bounds of the floored rates. `Repetitions.dfy` says, from the
proposals alone, exactly when and by how much recovered money is overstated.

**Datasets.** `Validator.dfy` decides a declarative predicate, `Generator.dfy` always satisfies
it, `Sampling.dfy` shows that the weighted sampling is exact, and `Extractors.dfy` shows that the
two feature extractors tell the same history. `Pipeline.dfy` composes the whole benchmark, from
generating a dataset to executing the approved recoveries, and shows that its audit finds nothing
unsafe and its two reports fit together.

## Reading the model

* Each class is proved against a function of its abstract state; properties of runs are lemmas
  about that function. `Collections`, `Totals`, `Sorting`, `Sequences` and `Rates` hold the shared
  mathematics.
* A version 5 UUID (section 4.3 of RFC 4122) is a free constructor over its name, that is, an
  injective hash. Its text can be cut off either end of a longer string in one way only, as with
  the fixed 36 characters of the real text.
* Times are integers (milliseconds in the gateway, seconds in datasets). The clock, fresh ids,
  the provider's answers, the random stream, the signature check and the parsed webhook are
  inputs.
* An unexpected exception in a gateway stage is the input `fault` of a call: the number of the
  stage whose component raises before it has an effect.
* An execution record that has begun is kept in a ledger by execution id, so that statements can
  be made about records that are not yet, or never, in the registry.

## Where code and documentation differ

The model follows the code in each case.

* `docs/safety-gateway.md:134` says that an active kill switch refuses all non-replayed requests.
  The switch is checked before replays are looked up (`agents/gateway/service.py:81-107`), so
  replays are refused too (`GatewayRuns.EngagedRefuses`).
* `docs/execution-layer.md:71-76` lists fewer transitions than
  `services/execution/state_machine.py:16-50`: SUCCEEDED may also become FAILED or
  REQUIRES_REVIEW, DEFERRED may become EXECUTION_STARTED or REQUIRES_REVIEW, and AUTHORIZED and
  EXECUTION_STARTED have further successors.
* The duplicate and unauthorized execution rates of the execution report are always 0: their
  counters are never incremented (`services/execution/evaluator.py:45-46`, `52-57`, `95-97`). A
  repeated request is counted again as recovered money
  (`ExecutionAccounting.RepetitionIsReportedTwice`).

## Model

| member | source | states |
|---|---|---|
| EndToEnd.AtMostOneDispatchPerTarget | services/execution/service.py:174-254 | in any run without store clears, with kill-switch actions, replays, answers, dead coroutines and webhooks in any order, no two provider requests are for the same (target type, target id) |
| EndToEnd.OneApprovalPerTarget | agents/gateway/service.py:206-269 | all approvals of a target, fresh or replayed, carry one action, one amount and one proposal id |
| EndToEnd.DispatchedAsApproved | services/execution/service.py:241-254 | what the provider is sent for a target is the action and amount of its stored approval and of every approval handed out for it |
| EndToEnd.RecoveredAtMostApproved | services/execution/webhook_handler.py:129-157 | recovered money is at most dispatched money, which equals the money the audit log shows as freshly approved for the dispatched targets, which is at most all freshly approved money |
| EndToEnd.ExecutedExactlyWhenFirst | services/execution/service.py:182-190 | a request that passes the recheck is executed if and only if no execution of its target has begun before |
| EndToEnd.AnswersAreForTheSameTarget | services/execution/service.py:183-187 | a caller answered with a stored record gets the execution of its own target, action and amount: derived keys never mix up two targets |
| EndToEnd.RecheckAcceptsExactly | services/execution/service.py:75-156 | given the call it belongs to, the recheck accepts a gateway result if and only if it is an approval, the currency is INR, the attempts are within the execution ceiling and the mode is test or simulation |
| EndToEnd.RecheckExactly | services/execution/service.py:75-156 | for any proposal, target and result: the recheck accepts if and only if twelve separate demands on their fields are met, and denies with a given error if and only if that demand is the first one not met |
| EndToEnd.SystemSoundAlways | services/execution/cli.py:81-95 | the joint invariant of gateway and execution layer: indexes agree, every issued approval and every execution points at the stored approval of its target, the log shows each stored approval once, dispatched money matches |
| Counterexample.ClearingAllowsSecondDispatch | agents/gateway/idempotency.py:111-115 | a concrete run in which one store clear lets a target be approved under another action and dispatched a second time |
| EveryRun.OncePerTargetExactly | services/execution/service.py:174-254 | a run, store clears included, dispatches every target at most once if and only if none of its events executes an accepted request, not held back, for a target already dispatched under an action never executed for it |
| EveryRun.OneDispatchPerTargetAndAction | services/execution/idempotency.py:10-51 | in every run, store clears included, no two provider requests share target and action |
| EveryRun.SendsExactlyWhen | services/execution/service.py:167-254 | in every run, executing an issued request sends one to the provider if and only if the recheck accepts it, its action is not RETRY_LATER and no execution of its target and action has begun; it is for that target, action and amount |
| EveryRun.SystemKeyedAlways | agents/gateway/service.py:138-165 | in every run, approvals name the id derived from their target and executions stand under the key of their target and action |
| ExecutionRuns.SoundAlways | services/execution/service.py:182-292 | the joint invariant of keys, statuses, requests, trail and money holds after every interleaving of begin, finish, abandon and webhook steps |
| ExecutionRuns.KeysAreDispatchedAtMostOnce | services/execution/idempotency.py:36-57 | stored keys and keys in flight are disjoint, registry keys and request keys are pairwise distinct, and the provider got exactly the requests of the executions that were not held back |
| ExecutionRuns.LosersGetTheRecord | services/execution/service.py:182-190 | under a key already taken a caller gets the conflict error while its execution is in flight or abandoned, and otherwise that execution's record; it proceeds if and only if the key was never taken |
| ExecutionRuns.RecordsAreNeverReplaced | services/execution/idempotency.py:53-57 | in every continuation of a run, executions keep id, key, target, action and amount, stored records keep their place, and deferred ones stay exactly as they are |
| ExecutionRuns.AbandonedKeysStayLocked | services/execution/service.py:253-254 | after the coroutine died at the await, every later request under that key is refused with the conflict error |
| ExecutionRuns.TrailsAreLegalPaths | services/execution/state_machine.py:16-50 | the shared audit trail spells, for each execution, a legal path from its start to its current status; registry records have one of five statuses |
| ExecutionRuns.TrailIsReported | services/execution/audit.py:52-55 | that path is the sequence of statuses of the events which the logger returns for the execution |
| ExecutionRuns.RecoveredMoneyIsConserved | services/execution/webhook_handler.py:91-157 | under any interleaving, duplicates, event ids and handlers, the amounts of successful reconciliations sum to the amounts of the records now RECONCILED and to at most the dispatched amounts |
| Answers.AnswerIsKept | services/execution/service.py:253-292 | in every run, whatever the provider answers, the record that is stored holds the reference and error code of that answer, an exception leaves no reference and "TRANSPORT_EXCEPTION"; which answers make it SUCCEEDED and which leave it open |
| Answers.AnswerStays | services/execution/service.py:263-265 | no later step of any continuation takes that reference or error away |
| Answers.CaptureReconciles | services/execution/webhook_handler.py:91-157 | in every run, an authentic capture event new to its handler that names the reference of a finished execution and of no other, and fits its money, reconciles it when it is SUCCEEDED or UNKNOWN_PROVIDER_STATE, and its whole amount is recovered |
| Answers.AmbiguousIsReconciled | services/execution/service.py:275-281 | an execution answered ambiguously with a reference can be reconciled by such an event in every continuation in which its outcome is still open |
| Answers.BeginTells | services/execution/service.py:174-254 | a beginning that gets its key records every field of its request under the supplied or derived key and sends them to the provider unless the action is held back; one that does not get it changes nothing |
| Answers.TrailTellsAlways | services/execution/service.py:294-320 | in every run each event of the trail tells, field by field, the execution it is about, the stage of its status, and the reference once there is an answer |
| Webhooks.ReconciledOnceForAll | services/execution/webhook_handler.py:60-157 | once a delivery reconciled a record, delivering the event again to any handler at any point of any continuation leaves the execution layer unchanged |
| Webhooks.DeliveryChangesExactly | services/execution/webhook_handler.py:34-186 | in every run a delivery changes the execution layer if and only if the event is authentic, new to its handler, reports a capture or failure, and the first stored record it names agrees on the money and is SUCCEEDED or UNKNOWN_PROVIDER_STATE |
| Webhooks.EarlyEventReconcilesLater | services/execution/webhook_handler.py:70-99 | an event that came before its record was stored is refused, and the same event at another handler reconciles the record once it is stored |
| Webhooks.RedeliveryChangesNothing | services/execution/webhook_handler.py:60-157 | delivering an event to any handler again, immediately after it was handled, changes no record and adds nothing to the trail, whatever the first answer was |
| Webhooks.RedeliveryIsReplay | services/execution/webhook_handler.py:70-73 | the same handler answers an authentic redelivery as a replay, even when the first delivery found no record |
| Webhooks.ReconcilesExactly | services/execution/webhook_handler.py:101-148 | an event moves a stored record if and only if it is a capture or failure event, its amount and currency do not contradict the record, and the record is SUCCEEDED or UNKNOWN_PROVIDER_STATE; the new status and the recovered amount |
| Webhooks.RepliesExactly | services/execution/webhook_handler.py:101-148 | exactly when a stored record answers AMOUNT_MISMATCH, CURRENCY_MISMATCH, an ignored event type, an invalid transition or an earlier reconciliation; the money checked is the payment's if there is one, else the order's, else the payment link's |
| Webhooks.WrongMoneyMovesNothing | services/execution/webhook_handler.py:116-127 | in every run, an event whose payment states another amount or currency than the first record it names moves nothing |
| Webhooks.HandlerAnswersExactly | services/execution/webhook_handler.py:47-99 | exactly when a handler answers INVALID_SIGNATURE, a malformed payload, a replay, a missing or an unknown reference, and which event ids it remembers |
| Webhooks.EventIdExactly | services/execution/webhook_handler.py:60-67 | which of header, payload id, event id and body hash identifies an event |
| Webhooks.CandidatesExactly | services/execution/webhook_handler.py:75-86 | which references an event is looked up by, with the fallbacks from payment to order and from payment link to payment |
| Webhooks.AmbiguityStaysOpen | services/execution/service.py:253-284 | timeouts, network errors, ambiguous answers and exceptions leave the outcome open and nothing else does; only a success succeeds; the new status is always a legal one |
| Execution.ExecutionService.BeginRecovery | services/execution/service.py:158-254 | the execution layer up to the await: recheck, key, deferral or dispatch; the exact new registry, keys in flight, requests and trail; an existing record is handed out as the stored object |
| Execution.ExecutionService.BeginUnderKey | services/execution/service.py:182-254 | the same from the key on |
| Execution.ExecutionService.HoldBack | services/execution/service.py:196-214 | RETRY_LATER stores a deferred record, releases the key and sends nothing |
| Execution.ExecutionService.DispatchNow | services/execution/service.py:216-254 | a dispatch moves the new record through EXECUTION_STARTED to PROVIDER_REQUESTED, records both and sends one request |
| Execution.ExecutionService.FinishRecovery | services/execution/service.py:253-292 | the execution layer after the await: the caller's own record object gets the mapped status, reference and error, is stored under its key, and the key is released |
| Execution.ExecutionIdempotencyManager.StartExecution | services/execution/idempotency.py:36-51 | a key is handed out if and only if it is neither stored nor in flight, and a stored record is returned as the object itself |
| Execution.ExecutionIdempotencyManager.CompleteExecution | services/execution/idempotency.py:53-57 | the record is stored (a new key last, an old one in place) and its key leaves the keys in flight |
| Execution.WebhookHandler.HandleWebhook | services/execution/webhook_handler.py:34-186 | one delivery: signature, parsing, deduplication, lookup, reconciliation of the shared record, with the exact new registry, trail, processed ids and reply |
| Execution.WebhookHandler.Locate | services/execution/webhook_handler.py:91-99 | the loop finds the first record in registry order with one of the references, if there is one |
| Execution.WebhookHandler.ReconcileRecord | services/execution/webhook_handler.py:101-175 | the reply and the move of the found record, which every holder of the object sees |
| Execution.ExecutionAuditLogger.GetEventsForExecution | services/execution/audit.py:52-55 | exactly the events of the execution, in order |
| StateMachine.LegalPathsAreShort | services/execution/state_machine.py:16-50 | along a legal path a rank strictly falls, so no status repeats and no path has more than five transitions |
| StateMachine.PredecessorsExactly | services/execution/state_machine.py:16-50 | from where each status can be reached; terminal are exactly FAILED, RECONCILED and REQUIRES_REVIEW |
| StateMachine.FiveTransitions | services/execution/state_machine.py:16-50 | five transitions are only possible from AUTHORIZED through DEFERRED |
| MockProvider.MockPaymentProvider.ExecuteRecovery | services/execution/mock_provider.py:32-83 | the normalized response by configured outcome, the recorded request and, when there is a reference, the recorded response |
| MockProvider.ResponseExactly | services/execution/mock_provider.py:39-79 | for each configured outcome its normalized status, which outcomes carry a reference, and which error code |
| MockProvider.MockPaymentProvider.QueryRecoveryStatus | services/execution/mock_provider.py:85-105 | an ambiguous transaction is settled as a success for good; an unknown reference is a validation error |
| MockProvider.ReferencesNameOneRecord | services/execution/mock_provider.py:36-37 | in every run against the mock provider no two registry records share a reference, so a webhook's match does not depend on registry order |
| Identity.ProposalIdIdentifiesTarget | agents/gateway/checks.py:25-33 | under fixed versions a derived proposal id determines target type and target id, whatever characters the type contains |
| Identity.ExecutionKeyIdentifiesProposal | services/execution/idempotency.py:10-18 | within one service a derived execution key determines proposal and action |
| Gateway.DeterministicSafetyGateway.EvaluateProposal | agents/gateway/service.py:62-505 | one call: result, store, limiter and audit log are exactly those of the staged evaluation |
| Gateway.DeterministicSafetyGateway.RunIntake | agents/gateway/service.py:81-194 | stages 1 to 4 stop with one audit record and without touching the store, or pass silently |
| Gateway.DeterministicSafetyGateway.RunReplayStage | agents/gateway/service.py:196-300 | stage 5 answers with the stored verdict or a conflict, or passes, and stores nothing |
| Gateway.DeterministicSafetyGateway.RunPolicyStages | agents/gateway/service.py:304-425 | a refusal of stages 6 to 9 is stored in both indexes and recorded; a failing component is recorded only |
| Gateway.DeterministicSafetyGateway.RunRateStage | agents/gateway/service.py:427-482 | stage 10 prunes the looked-up lists; an approval is recorded in limiter, store and log, a rate limit in the log only |
| Gateway.DeterministicSafetyGateway.EvaluateBatch | agents/gateway/service.py:569-578 | a batch is its calls in order, each on the state the previous one left |
| Gateway.InMemoryIdempotencyStore.CheckTargetConflict | agents/gateway/idempotency.py:49-86 | a conflict if and only if the target was approved under another proposal id with another action or amount |
| Gateway.InMemoryIdempotencyStore.RecordDecision | agents/gateway/idempotency.py:88-109 | writes the result under the primary key and the target's entry, and nothing else |
| Gateway.GatewayKillSwitch.SetCorrupted | agents/gateway/kill_switch.py:31-35 | corruption engages the switch |
| Gateway.GatewayKillSwitch.Deactivate | agents/gateway/kill_switch.py:25-29 | deactivating has no effect on a corrupted switch |
| GatewayRuns.StopsAtFirstFailure | agents/gateway/service.py:81-482 | the verdict's stage is the first of the ten whose demand is not met; all demands before it are met; with none unmet the call is approved |
| GatewayRuns.FreshApprovalExactly | agents/gateway/service.py:81-482 | a call is approved afresh if and only if all ten demands are met |
| GatewayRuns.ConsentExactly | agents/gateway/checks.py:237-289 | with the other nine demands met, a call that needs consent is approved if and only if it carries an approval record of this proposal id and this target id that says yes and whose signer is not blank; otherwise it needs review, with the reason told by the same fields |
| GatewayRuns.ReasonsExactly | agents/gateway/service.py:81-457 | every refusal gives the decision and reason of the first demand that is not met, told in the fields of the call |
| GatewayRuns.AnswerAndRecordTell | agents/gateway/service.py:507-542 | every field of the result and of its audit record |
| GatewayRuns.EngagedExactly | agents/gateway/kill_switch.py:20-43 | after any run the switch is engaged if and only if it was ever corrupted or the operator's last word was to activate it |
| GatewayRuns.IndexesAgreeAlways | agents/gateway/idempotency.py:88-109 | in every run a primary entry exists exactly when its target's entry exists, with the derived id and the same result |
| GatewayRuns.TargetConflictNeverFires | agents/gateway/checks.py:92-104 | past stage 4 both indexes give one answer, so the conflict rule for another proposal id never fires |
| GatewayRuns.VerdictsAreSticky | agents/gateway/service.py:544-567 | without store clears a stored verdict stays, unchanged, through every later event |
| GatewayRuns.StoredVerdictDecides | agents/gateway/service.py:206-269 | a later call for the target replays that verdict if it asks for the stored action and amount, and is blocked as a conflict otherwise |
| GatewayRuns.ApprovalsComeFromTheStore | agents/gateway/service.py:245-269 | every approval handed out is the stored approval of its target, with the same action and amount, and eligible |
| GatewayRuns.RememberedIsNew | agents/gateway/service.py:458-482 | a verdict is only ever stored for a target that has none |
| GatewayRuns.OneRecordPerCall | agents/gateway/audit.py:21-24 | the log holds one record per call, in order, each exactly the result the caller got |
| GatewayRuns.LogRebuildsStore | agents/gateway/service.py:507-567 | folding the audit log rebuilds both indexes after any run without store clears |
| GatewayRuns.LimiterAnswersFromLog | agents/gateway/rate_limit.py:24-52 | for a clock that never runs backwards: at any later time the pruned limiter answers as the full history of fresh approvals in the log would, store clears or not |
| GatewayRuns.LimitedExactly | agents/gateway/rate_limit.py:35-52 | for a clock that never runs backwards: after any run a target and customer are limited if and only if the log holds as many fresh approvals of the target not older than the window as the limit, or of the customer as three times the limit: older ones are forgotten, newer ones never |
| GatewayRuns.RateLimitedExactly | agents/gateway/service.py:427-457 | for such a clock, a call that meets the first nine demands is rate limited if and only if the log holds that many, and approved otherwise |
| GatewayRuns.NoWindowOfTheLogIsOverfull | agents/gateway/rate_limit.py:35-70 | the window bound counted in the positions of the log itself |
| GatewayRuns.NoWindowIsOverfull | agents/gateway/rate_limit.py:35-70 | for a clock that never runs backwards: no closed window holds more fresh approvals of a target than the limit, or of a customer than three times the limit |
| GatewayRuns.EngagedRefuses | agents/gateway/service.py:81-107 | while the switch is active or corrupted every call is refused at stage 1 with no check passed, replays included |
| GatewayRuns.CorruptionIsFinal | agents/gateway/kill_switch.py:25-43 | once corrupted, the switch refuses every later call at stage 1, replays included, whatever the operator does |
| RateLimit.InMemoryRateLimiter.IsRateLimited | agents/gateway/rate_limit.py:24-52 | the answer for target and customer, and which lists are pruned by asking |
| RateLimit.InMemoryRateLimiter.RecordAttempt | agents/gateway/rate_limit.py:54-70 | appends the time to the target's list and the customer's |
| RateLimit.SinceKeepsRecent | agents/gateway/rate_limit.py:39-46 | pruning keeps every time not older than the cutoff, as often as it was recorded, and drops all others |
| RateLimit.SinceAppend | agents/gateway/rate_limit.py:39-46 | and it keeps their order: pruning a list is pruning its parts |
| RateLimit.PruningForgetsExactly | agents/gateway/rate_limit.py:35-52 | what asking leaves in the lists of target and customer, time by time, and that no other list changes |
| RateLimit.AdmittedWindowBound | agents/gateway/rate_limit.py:35-50 | a history in which each attempt was admitted with fewer than the limit in its trailing window has no overfull window anywhere |
| Decision.RecoveryDecisionAgent.EvaluateProposal | agents/decision/service.py:71-206 | when the chain blocks, escalates, proposes or declines, each as an independent condition, and which action it proposes |
| Decision.RoutingIsDetermined | agents/decision/service.py:71-176 | these conditions leave no freedom: they determine action, status, cooldown and approval flag |
| Decision.ActionsExactly | agents/decision/service.py:71-176 | each action and status on its own condition, with the precedence spelled out |
| Decision.ConditionsTell | agents/decision/service.py:70-164 | those conditions in the fields of the context |
| Decision.GatewayFollowsAgent | agents/gateway/service.py:304-425 | the gateway's whole verdict on the agent's proposal for its own target, under matching policies, for a positive amount and a valid target type, with the switch off, no stored verdict and no rate limit |
| Decision.ApprovedExactlyWhenProposed | agents/gateway/checks.py:208-234 | under the same conditions it is approved if and only if the status is PROPOSED and stage 8 passes |
| Decision.DisagreementUnderDefaults | agents/gateway/policy.py:29-38 | under the default policies the two disagree on a PROPOSED proposal exactly for three fraud codes and for an AI-suggested retry against a generic decline below 7500 basis points |
| Decision.DefaultPoliciesMatch | agents/decision/policy.py:9-22 | the default configurations of agent and gateway agree on versions, attempt limit, threshold and blocked codes |
| Decision.ApprovalRecordsDoNotMatter | agents/gateway/checks.py:237-289 | under the same conditions no approval record changes the verdict, so a high-value target is never approved through the agent |
| GatewayEvaluation.GatewayEvaluator.Evaluate | agents/gateway/evaluator.py:54-172 | the report counts verdicts, reasons and replays, sums amounts and audits approvals exactly as the results say, while the gateway processes the batch |
| GatewayEvaluation.GatewayEvaluator.AuditApproval | agents/gateway/evaluator.py:94-112 | how many of the four audit rules an approval breaks |
| GatewayEvaluation.AuditPointsTell | agents/gateway/evaluator.py:94-112 | the four audit rules in the fields of the call |
| GatewayEvaluation.CountsAppend | agents/gateway/evaluator.py:78-131 | what one graded call adds to each count and amount |
| GatewayEvaluation.DistributionAddsUp | agents/gateway/evaluator.py:139-146 | six counts partition the batch, amounts too, and the floored shares of a non-empty batch sum to between 9995 and 10000 |
| GatewayEvaluation.UnsafeAtMostThricePerReplay | agents/gateway/evaluator.py:94-112 | with a shared policy the unsafe count is at most three per replay, from any gateway state |
| GatewayEvaluation.ReplayCanBreakThreeRules | agents/gateway/evaluator.py:94-112 | that bound is reached: for any stored high-value approval there is a replay that breaks three rules |
| GatewayEvaluation.NothingUnsafeOnDistinctTargets | agents/gateway/evaluator.py:133-137 | on a fresh gateway and distinct targets there are no replays and nothing unsafe |
| GatewayEvaluation.ViolationsAreRefusals | agents/gateway/evaluator.py:109-131 | the integrity violations are exactly the proposals refused over amount, currency or unit; approvals contribute none |
| Rates.F1Accuracy | services/risk_engine/metrics.py:89-95 | the F1 computed from floored precision and recall is at most the floor of the exact F1 and less than three basis points below it |
| Rates.F1Between | services/risk_engine/metrics.py:91-95 | it lies between the floored precision and recall |
| Rates.BpsIs | services/risk_engine/metrics.py:88-102 | a rate is the quotient rounded down, and 0 without a denominator |
| Rates.F1Is | services/risk_engine/metrics.py:91-95 | the F1 is the harmonic mean of the two rates rounded down, and 0 when both are |
| Metrics.CalculateEvaluationMetrics | services/risk_engine/metrics.py:15-122 | confusion matrix, amounts, scores and rule counts are the totals over the predictions, and the early return for empty inputs meets the same contract |
| Metrics.EvaluateDiagnoses | agents/diagnosis/evaluator.py:73-203 | the figures of the report: the same for diagnoses, whose assessment may be absent, with category counts and agreement |
| Metrics.OneCaseScored | services/risk_engine/metrics.py:62-84 | the matrix and the amounts case by case: which cell a case adds to and what its money counts as |
| Metrics.ScoresToldExactly | services/risk_engine/metrics.py:86-102 | precision is over positive verdicts, recall over recoverable cases, accuracy over all judged cases, capture over recoverable money, each rounded down |
| Metrics.OneDiagnosisCounted | agents/diagnosis/evaluator.py:102-128 | what one diagnosis adds to successes, failures, grounded cases, agreements and its category |
| Metrics.OnePredictionFires | services/risk_engine/metrics.py:71-72 | each piece of evidence of a prediction of a known case counts once for its rule |
| Metrics.FittingExactly | agents/diagnosis/evaluator.py:120-127 | which scenario and category belong together |
| Metrics.MetricsIgnoreOrder | services/risk_engine/metrics.py:46-102 | any permutation of the predictions gives the same report |
| Metrics.DiagnosesIgnoreOrder | agents/diagnosis/evaluator.py:102-161 | any permutation of the diagnoses gives the same figures: counts, matrix, amounts, scores, categories and shares |
| Metrics.TruthOrderIsIrrelevant | services/risk_engine/metrics.py:46-47 | without duplicate case ids the order of the ground truth does not matter |
| Metrics.EvaluatorsAgree | agents/diagnosis/evaluator.py:130-158 | the two loops, written apart, give the same matrix, amounts and scores for the same judgements |
| Metrics.RecoverableMoneySplits | services/risk_engine/metrics.py:66-84 | captured plus missed plus left-open money is the recoverable money; nothing is left open when every case is judged |
| Metrics.ScoresAreRates | services/risk_engine/metrics.py:86-102 | for amounts that are not negative every score lies in 0..10000, with the F1 bounds |
| Metrics.DiagnosisRatesInRange | agents/diagnosis/evaluator.py:159-161 | validity, grounding and agreement shares lie in 0..10000 and successes plus failures are at most the diagnoses |
| ExecutionAccounting.ExecutionEvaluator.EvaluateProposals | services/execution/evaluator.py:22-143 | the report's counts and amounts are the totals over what each item came to, while the service processes the items; the returned records are those of the answers |
| ExecutionAccounting.ExecutionEvaluator.Enter | services/execution/evaluator.py:49-104 | how one item changes the books |
| ExecutionAccounting.OneLineBooked | services/execution/evaluator.py:49-104 | what an item that was not approved, was refused, or was answered with a record in some status adds to each count and amount |
| ExecutionAccounting.BooksBalance | services/execution/evaluator.py:49-104 | from any reachable state, authorized = succeeded + failed + deferred + unknown + reconciled, and for amounts that are not negative recovered + failed is at most authorized, which is at most at risk |
| ExecutionAccounting.ReachableStatuses | services/execution/service.py:196-290 | however executions and webhooks interleave, stored records have one of five statuses |
| ExecutionAccounting.RecoveredExactly | services/execution/evaluator.py:79-86 | recovered = money added to the registry's succeeded records + money reported again for repeated requests |
| ExecutionAccounting.RecoveredOnDistinctTargets | services/execution/evaluator.py:79-104 | on distinct proposal targets and a fresh service recovered is the money of the succeeded records, and there are no integrity violations |
| Repetitions.RecoveredIffNoSuccessRepeats | services/execution/evaluator.py:65-86 | for a fresh service, recovered equals the registry's succeeded money if and only if no accepted item repeats the key of an earlier accepted item whose execution succeeded |
| Repetitions.OverstatedBy | services/execution/evaluator.py:65-86 | for a fresh service the report overstates recovered money by exactly the amounts of the items that repeat a success |
| Repetitions.LinesAreTold | services/execution/evaluator.py:59-104 | for a fresh service every item is answered as the first accepted item with its key came to, and the integrity violations are exactly the accepted items that repeat a key with another amount or currency |
| Repetitions.ProcessExactly | services/execution/service.py:167-292 | with no key in flight an item is refused, answered from the registry, or executed, each exactly when recheck and registry say so |
| ExecutionAccounting.RepetitionIsReportedTwice | services/execution/evaluator.py:65-82 | an input on which they differ: the same accepted item twice is dispatched and stored once but its money is reported twice |
| Validator.Validate | data/synthetic/validator.py:13-139 | valid if and only if the declarative predicate holds, and exactly then without errors |
| Validator.CheckCustomers | data/synthetic/validator.py:17-31 | no error if and only if ids and external ids are unique |
| Validator.CheckSubscriptions | data/synthetic/validator.py:33-56 | no error if and only if ids are unique, customers exist and are older, amounts are not negative |
| Validator.CheckPayments | data/synthetic/validator.py:58-81 | the same for payments |
| Validator.CheckAttempts | data/synthetic/validator.py:83-99 | no error if and only if ids are unique, payments exist and are older, numbers are positive |
| Validator.CheckNumbering | data/synthetic/validator.py:101-107 | no error if and only if each payment's attempt numbers are a permutation of 1, .., n |
| Validator.CheckCases | data/synthetic/validator.py:109-132 | no error if and only if ids are unique, each case has exactly one existing target and no negative amount |
| Sorting.SortedIsOneToN | data/synthetic/validator.py:104-107 | comparing the sorted numbers with 1, .., n decides whether they are a permutation of it |
| Sorting.SortedIsStable | agents/diagnosis/context_builder.py:64-67 | sorting keeps the order of elements with one key |
| Generator.SyntheticDataGenerator.Generate | data/synthetic/generator.py:53-265 | for every random stream the dataset is well-formed, has exactly the configured customers and payments, payments per customer differ by at most one, no two cases share a target, the ground truth describes the cases one by one, and the entities look as promised: numbered external ids, dates, profile amounts, attempts and their failure codes, the money and time of each case, past-due subscriptions exactly with a case |
| Generator.SyntheticDataGenerator.GenerateValidated | data/synthetic/cli.py:49-56 | generating and then validating always succeeds |
| Generator.SyntheticDataGenerator.GeneratePayment | data/synthetic/generator.py:122-184 | one payment with consecutively numbered, later attempts keeps the dataset's invariants, and it is captured if and only if its draw of 10000 is below the profile's success rate |
| Generator.SyntheticDataGenerator.AllocatePayments | data/synthetic/generator.py:108-113 | the round-robin deal in closed form |
| Generator.ShareCounts | data/synthetic/generator.py:108-113 | the closed form is the number of payments that the round-robin deal gives to the customer |
| Generator.SyntheticDataGenerator.GeneratePaymentCases | data/synthetic/generator.py:192-221 | at most one case per failed payment, each with a matching ground-truth entry |
| Generator.SyntheticDataGenerator.GenerateSubscriptionCases | data/synthetic/generator.py:223-251 | subscriptions change in status only, each falls past due if and only if its draw of 10000 is below 2000, and the new cases keep the invariants |
| Generator.SyntheticDataGenerator.SampleScenario | data/synthetic/generator.py:42-51 | the sample is the scenario whose running total of weights first exceeds the draw, never the fallback |
| Generator.SpecsExactly | data/synthetic/scenarios.py:20-122 | which scenarios are labelled recoverable, and which one is about a subscription |
| Pipeline.Benchmark.Run | services/execution/cli.py:26-95 | for every random stream, diagnoses and provider answers, on a fresh gateway and service: no replay and nothing unsafe, the execution's authorized count and money are the gateway's approved ones, recovered is the money of the registry's succeeded records, and no integrity violations; the money judged is the money at risk in the cases |
| Pipeline.Benchmark.Propose | services/execution/cli.py:40-83 | one call for each risk context: the target copies the context, and the proposal is the one that the agent's conditions demand for the context and its diagnosis |
| Pipeline.HighValueCustomers | data/synthetic/profiles.py:18-59 | in a generated dataset a payment reaches the gateway's default high-value limit if and only if its customer is the third of a group of five |
| Pipeline.ContextsAreDistinct | services/risk_engine/extractor.py:33-94 | one case for a target gives contexts with distinct targets |
| Pipeline.PastDueReachesAgent | services/execution/cli.py:43-59 | the agent sees a subscription as past due exactly when the dataset says so |
| Pipeline.BooksContinueReport | services/execution/evaluator.py:49-57 | for any results, the execution's books count and add up exactly what the gateway's report approved |
| Sampling.SamplingIsExact | data/synthetic/generator.py:42-51 | for weights that are not negative, each scenario is returned for exactly its weight's number of the draws |
| Sampling.FallbackUnreachable | data/synthetic/generator.py:46-51 | for a positive total, whatever the single weights, every draw is caught by the loop |
| Sampling.Pick | data/synthetic/generator.py:46-51 | the loop answers with the first weight whose running total exceeds the draw |
| Sampling.LabelTells | data/synthetic/generator.py:69-71 | a numbered external id is its prefix and decimal digits, padded to its width, that denote its number |
| Sampling.LabelsDiffer | data/synthetic/generator.py:69-71 | numbered, zero-padded external ids are distinct, however large the number |
| Extractors.ExtractFromDataset | services/risk_engine/extractor.py:16-96 | one context per case with a target, in order, with the history taken directly from all payments |
| Extractors.BuildFromDataset | agents/diagnosis/context_builder.py:30-128 | the same for the diagnosis contexts |
| Extractors.ExtractorsAgree | agents/diagnosis/context_builder.py:46-126 | both list the same cases in the same order with the same counts, successes are part of the history, and percent is basis points cut to percent |
| Extractors.SameMoney | agents/diagnosis/context_builder.py:78-86 | on generated data the two agree on amount and currency, which they take from different entities |
| Extractors.RiskContextTells | services/risk_engine/extractor.py:34-66 | every field of a payment's risk context, counted in the dataset: earlier payments, captured ones, their rate, attempts, the failure code of the attempt listed last |
| Extractors.SubscriptionContextTells | services/risk_engine/extractor.py:68-94 | the same for a subscription |
| Extractors.DiagnosisContextTells | agents/diagnosis/context_builder.py:60-94 | the money of the payment, the whole days of tenure, and the attempts in the order of their numbers, stably, with their offsets |
| Extractors.HistoryCounts | services/risk_engine/extractor.py:38-45 | the history is the customer's earlier payments and its successes the captured ones |
| Extractors.GroupedHistory | services/risk_engine/extractor.py:22-45 | the per-customer index filtered by time equals a direct filter over all payments |
| Extractors.PercentOfBps | agents/diagnosis/context_builder.py:56-58 | flooring to basis points and then to percent equals flooring to percent at once |
| Extractors.SameLatestFailure | services/risk_engine/extractor.py:47-50 | the latest failure code by list order is that of the highest attempt number when attempts are listed by number |
| Extractors.GeneratedAttemptsAscend | data/synthetic/generator.py:162-182 | the generator lists attempts by number |
| Extractors.WellFormedResolves | data/synthetic/validator.py:109-132 | on every dataset that passes the validator no lookup fails and no case is skipped |

## Left out

* FastAPI endpoints, the frontend, command-line printing, the database models, migrations, the
  seeder and the dataset statistics: plumbing or plain data.
* The Razorpay adapter, LLM providers and prompts: a provider is an arbitrary normalized answer
  or an exception.
* HMAC (section 2 of RFC 2104) and JSON parsing: the signature check and the parsed fields are
  inputs of a delivery. A payload whose parts have unexpected JSON types is not part of this model.
* Message texts, explanation chains, blocking conditions, notes, receipts, display strings, masked
  identifiers and `updated_at` fields.
* Threads inside one gateway call: the stage 5 lookup and the final write take the lock separately
  (`agents/gateway/service.py:206`, `481`), so runs are of atomic calls.
* An exception raised by the gateway's store or logger halfway through its writes; `fault` covers
  exceptions raised before a stage has an effect.
* Actions outside the enumeration, and amounts that are not integers or are booleans: the types of
  the model exclude them.
* `release_lock` and the execution registry's `clear`: the service never calls them. The gateway
  store's `clear` is an event of gateway runs.
* Caller-supplied execution keys in the end-to-end theorems: they are modelled in the execution
  layer (`RequestKey`), whose own theorems hold for any key.
* A cancelled evaluator: in `ExecutionAccounting` every dispatched request is answered, and nothing
  else runs while an item is processed; the state before the pass is any reachable one.
* Metrics.EvaluateDiagnoses: the prompt version, provider and model name that the report copies from
  the first diagnosis (`agents/diagnosis/evaluator.py:167-173`) are absent, and so are the
  differences to the baseline's figures.
* Metrics.DiagnosesIgnoreOrder: does not cover those three fields, which do depend on the order.
* Validator.Validate: the errors are kinds with ids, not message texts, and their list is only tied
  to validity.
* Generator.SyntheticDataGenerator.Generate: subscriptions are values in a list, so falling past due
  replaces the list entry where the original assigns a field; names and e-mail addresses are absent.
* Generator.SyntheticDataGenerator.SampleScenario: the total weight is required to be positive, as
  the original's draw fails otherwise.
* Extractors.ExtractFromDataset: missing references are excluded, as the original's lookups fail on them.
* Extractors.BuildFromDataset: missing references are excluded in the same way; failure reasons of attempts are absent.
