/** The execution benchmark: one pass over proposals with their gateway results, driving the
    execution service and keeping the books. */
module ExecutionAccounting {
  import opened Identity
  import opened Domain
  import opened StateMachine
  import opened ExecutionSpec
  import opened ExecutionRuns
  import opened Execution
  import opened Totals
  import opened Rates

  /** One triplet, with the execution id and the provider's answer that it will meet. */
  datatype Item = Item(proposal: Proposal, target: Target, result: GatewayResult, id: nat, outcome: ProviderOutcome)

  function RequestOf(item: Item): ExecutionRequest {
    ExecutionRequest(item.proposal, item.target, item.result, None)
  }

  datatype Reply = NotAsked | Refusal | Answer(record: Record, isNew: bool)

  /** What an item came to: the line it adds to the books. */
  datatype Line = Line(target: Target, reply: Reply)

  /** One call of `execute_recovery` that meets no other task. */
  function Execute(config: ExecutionConfig, st: ExecState, item: Item): (ExecState, Reply) {
    var (begun, outcome) := Begin(config, st, RequestOf(item), item.id);
    match outcome
    case Denied(_) => (begun, Refusal)
    case Conflict => (begun, Refusal)
    case Existing(r) => (begun, Answer(r, false))
    case Held(r) => (begun, Answer(r, true))
    case Awaiting(r) => (Finish(begun, r, item.outcome), Answer(Answered(r, item.outcome), true))
  }

  function Process(config: ExecutionConfig, st: ExecState, item: Item): (ExecState, Line) {
    if item.result.decision != Approved then (st, Line(item.target, NotAsked))
    else
      var (after, reply) := Execute(config, st, item);
      (after, Line(item.target, reply))
  }

  function ProcessAll(config: ExecutionConfig, st: ExecState, items: seq<Item>): (r: (ExecState, seq<Line>))
    ensures |r.1| == |items|
  {
    if items == [] then (st, [])
    else
      var before := ProcessAll(config, st, items[..|items| - 1]);
      var last := Process(config, before.0, items[|items| - 1]);
      (last.0, before.1 + [last.1])
  }

  lemma ProcessAppend(config: ExecutionConfig, st: ExecState, items: seq<Item>, item: Item)
    ensures var (before, lines) := ProcessAll(config, st, items);
            var (after, line) := Process(config, before, item);
            ProcessAll(config, st, items + [item]) == (after, lines + [line])
  {
  }

  // ---------------------------------------------------------------------------
  // The books
  // ---------------------------------------------------------------------------

  predicate Has(line: Line, status: Status) {
    line.reply.Answer? && line.reply.record.status == status
  }

  const WITH_STATUS: Status -> Line -> int := s => (line: Line) => if Has(line, s) then 1 else 0
  const AUTHORIZED: Line -> int := (line: Line) => if line.reply.NotAsked? then 0 else 1
  const REFUSED: Line -> int := (line: Line) => if line.reply.Refusal? then 1 else 0
  const AT_RISK: Line -> int := (line: Line) => line.target.amountMinor
  const AUTHORIZED_AMOUNT: Line -> int := (line: Line) => if line.reply.NotAsked? then 0 else line.target.amountMinor

  predicate Attempted(line: Line) {
    line.reply.Answer?
    && line.reply.record.status in {ExecutionStarted, ProviderRequested, Succeeded, Failed, UnknownProviderState}
  }

  const ATTEMPTED: Line -> int := (line: Line) => if Attempted(line) then 1 else 0
  const ATTEMPTED_AMOUNT: Line -> int := (line: Line) => if Attempted(line) then line.target.amountMinor else 0
  const RECOVERED_AMOUNT: Line -> int :=
    (line: Line) => if Has(line, Succeeded) || Has(line, Reconciled) then line.target.amountMinor else 0
  const FAILED_AMOUNT: Line -> int :=
    (line: Line) => if Has(line, Failed) || line.reply.Refusal? then line.target.amountMinor else 0
  const VIOLATIONS: Line -> int :=
    (line: Line) =>
      if line.reply.Answer? && (line.reply.record.amountMinor != line.target.amountMinor
                                || line.reply.record.currency != line.target.currency)
      then 1 else 0

  datatype Books = Books(
    authorized: int,
    attempted: int,
    succeeded: int,
    failed: int,
    deferred: int,
    unknown: int,
    reconciled: int,
    atRiskAmount: int,
    authorizedAmount: int,
    attemptedAmount: int,
    confirmedAmount: int,
    recoveredAmount: int,
    failedAmount: int,
    violations: int)

  datatype Report = Report(
    total: int,
    books: Books,
    unauthorizedRateBps: int,
    duplicateRateBps: int,
    violationRateBps: int)

  ghost predicate Balanced(lines: seq<Line>, b: Books) {
    && b.authorized == Total(lines, AUTHORIZED)
    && b.attempted == Total(lines, ATTEMPTED)
    && b.succeeded == Total(lines, WITH_STATUS(Succeeded))
    && b.failed == Total(lines, WITH_STATUS(Failed)) + Total(lines, REFUSED)
    && b.deferred == Total(lines, WITH_STATUS(Deferred))
    && b.unknown == Total(lines, WITH_STATUS(UnknownProviderState))
    && b.reconciled == Total(lines, WITH_STATUS(Reconciled))
    && b.atRiskAmount == Total(lines, AT_RISK)
    && b.authorizedAmount == Total(lines, AUTHORIZED_AMOUNT)
    && b.attemptedAmount == Total(lines, ATTEMPTED_AMOUNT)
    && b.confirmedAmount == b.recoveredAmount == Total(lines, RECOVERED_AMOUNT)
    && b.failedAmount == Total(lines, FAILED_AMOUNT)
    && b.violations == Total(lines, VIOLATIONS)
  }

  ghost predicate Accounts(lines: seq<Line>, r: Report) {
    && r.total == |lines|
    && Balanced(lines, r.books)
    && r.unauthorizedRateBps == 0 == r.duplicateRateBps
    && r.violationRateBps == Bps(r.books.violations, r.books.attempted)
  }

  lemma BooksAppend(lines: seq<Line>, line: Line)
    ensures forall s :: Total(lines + [line], WITH_STATUS(s)) == Total(lines, WITH_STATUS(s)) + WITH_STATUS(s)(line)
    ensures Total(lines + [line], AUTHORIZED) == Total(lines, AUTHORIZED) + AUTHORIZED(line)
    ensures Total(lines + [line], REFUSED) == Total(lines, REFUSED) + REFUSED(line)
    ensures Total(lines + [line], ATTEMPTED) == Total(lines, ATTEMPTED) + ATTEMPTED(line)
    ensures Total(lines + [line], AT_RISK) == Total(lines, AT_RISK) + AT_RISK(line)
    ensures Total(lines + [line], AUTHORIZED_AMOUNT) == Total(lines, AUTHORIZED_AMOUNT) + AUTHORIZED_AMOUNT(line)
    ensures Total(lines + [line], ATTEMPTED_AMOUNT) == Total(lines, ATTEMPTED_AMOUNT) + ATTEMPTED_AMOUNT(line)
    ensures Total(lines + [line], RECOVERED_AMOUNT) == Total(lines, RECOVERED_AMOUNT) + RECOVERED_AMOUNT(line)
    ensures Total(lines + [line], FAILED_AMOUNT) == Total(lines, FAILED_AMOUNT) + FAILED_AMOUNT(line)
    ensures Total(lines + [line], VIOLATIONS) == Total(lines, VIOLATIONS) + VIOLATIONS(line)
  {
  }

  /** The books, line by line: what an item that was not approved, was refused, or was
      answered with a record in some status adds to each count and amount. */
  lemma OneLineBooked(lines: seq<Line>, line: Line, b: Books, after: Books)
    requires Balanced(lines, b) && Balanced(lines + [line], after)
    ensures var t := line.target.amountMinor;
            var seen := b.(atRiskAmount := b.atRiskAmount + t);
            var asked := seen.(authorized := b.authorized + 1, authorizedAmount := b.authorizedAmount + t);
            match line.reply
            case NotAsked => after == seen
            case Refusal => after == asked.(failed := b.failed + 1, failedAmount := b.failedAmount + t)
            case Answer(r, _) =>
              var differs := r.amountMinor != t || r.currency != line.target.currency;
              var audited := asked.(violations := b.violations + (if differs then 1 else 0));
              var sent := audited.(attempted := b.attempted + 1, attemptedAmount := b.attemptedAmount + t);
              match r.status
              case Succeeded =>
                after == sent.(succeeded := b.succeeded + 1, confirmedAmount := b.confirmedAmount + t,
                               recoveredAmount := b.recoveredAmount + t)
              case Reconciled =>
                after == audited.(reconciled := b.reconciled + 1, confirmedAmount := b.confirmedAmount + t,
                                  recoveredAmount := b.recoveredAmount + t)
              case Failed => after == sent.(failed := b.failed + 1, failedAmount := b.failedAmount + t)
              case UnknownProviderState => after == sent.(unknown := b.unknown + 1)
              case Deferred => after == audited.(deferred := b.deferred + 1)
              case ExecutionStarted => after == sent
              case ProviderRequested => after == sent
              case _ => after == audited
  {
    BooksAppend(lines, line);
    hide Total;
  }

  function AnswersOf(lines: seq<Line>): seq<Record> {
    if lines == [] then []
    else
      var line := lines[|lines| - 1];
      AnswersOf(lines[..|lines| - 1]) + (if line.reply.Answer? then [line.reply.record] else [])
  }

  lemma AnswersAppend(lines: seq<Line>, line: Line)
    ensures AnswersOf(lines + [line])
         == if line.reply.Answer? then AnswersOf(lines) + [line.reply.record] else AnswersOf(lines)
  {
  }

  class ExecutionEvaluator {
    const service: ExecutionService

    constructor (service: ExecutionService)
      ensures this.service == service
    {
      this.service := service;
    }

    /** A whole call, with the answer arriving while nothing else runs. `None` is an exception. */
    method ExecuteRecovery(item: Item, ghost earlier: seq<ExecutionRecord>, ghost answers: seq<Record>)
      returns (record: Option<ExecutionRecord>, ghost reply: Reply)
      requires service.manager.Valid() && Shows(earlier, answers)
      modifies service.manager, service.provider, service.auditLogger
      ensures service.manager.Valid() && Shows(earlier, answers)
      ensures (service.State(), reply) == Execute(service.config, old(service.State()), item)
      ensures reply.Refusal? <==> record.None?
      ensures record.Some? ==> reply.Answer? && record.value.Snapshot() == reply.record
    {
      hide Begin, Finish, Answered;
      var outcome := service.BeginRecovery(RequestOf(item), item.id);
      match outcome
      case Denied(_) =>
        record, reply := None, Refusal;
      case Conflict =>
        record, reply := None, Refusal;
      case Existing(r) =>
        record, reply := Some(r), Answer(r.Snapshot(), false);
      case Held(r) =>
        record, reply := Some(r), Answer(r.Snapshot(), true);
      case Awaiting(r) =>
        assert r !in service.manager.records.Values;
        AwaitingIsRequested(service.config, old(service.State()), RequestOf(item), item.id);
        service.FinishRecovery(r, item.outcome);
        record, reply := Some(r), Answer(r.Snapshot(), true);
    }

    lemma AwaitingIsRequested(config: ExecutionConfig, st: ExecState, req: ExecutionRequest, id: nat)
      ensures var outcome := Begin(config, st, req, id).1;
              outcome.Awaiting? ==> outcome.record.status == ProviderRequested
    {
    }

    /** The returned records are those of the answers, as they stand when the loop ends. */
    ghost predicate Shows(records: seq<ExecutionRecord>, answers: seq<Record>)
      reads records
    {
      |records| == |answers| && forall k :: 0 <= k < |records| ==> records[k].Snapshot() == answers[k]
    }

    /** Enters one item into the books. `None` for the record is an exception. */
    method Enter(b: Books, target: Target, approved: bool, record: Option<ExecutionRecord>,
                 ghost lines: seq<Line>, ghost line: Line) returns (r: Books)
      requires Balanced(lines, b) && line.target == target && (approved <==> !line.reply.NotAsked?)
      requires approved ==> (if record.Some? then line.reply.Answer? && record.value.Snapshot() == line.reply.record
                             else line.reply.Refusal?)
      ensures Balanced(lines + [line], r)
    {
      BooksAppend(lines, line);
      hide Total;
      r := b.(atRiskAmount := b.atRiskAmount + target.amountMinor);
      if !approved {
        return;
      }
      r := r.(authorized := r.authorized + 1, authorizedAmount := r.authorizedAmount + target.amountMinor);
      if record.None? {
        r := r.(failed := r.failed + 1, failedAmount := r.failedAmount + target.amountMinor);
        return;
      }
      var status := record.value.status;
      if status in {ExecutionStarted, ProviderRequested, Succeeded, Failed, UnknownProviderState} {
        r := r.(attempted := r.attempted + 1, attemptedAmount := r.attemptedAmount + target.amountMinor);
      }
      if status == Succeeded {
        r := r.(succeeded := r.succeeded + 1, confirmedAmount := r.confirmedAmount + target.amountMinor,
                recoveredAmount := r.recoveredAmount + target.amountMinor);
      } else if status == Reconciled {
        r := r.(reconciled := r.reconciled + 1, confirmedAmount := r.confirmedAmount + target.amountMinor,
                recoveredAmount := r.recoveredAmount + target.amountMinor);
      } else if status == Failed {
        r := r.(failed := r.failed + 1, failedAmount := r.failedAmount + target.amountMinor);
      } else if status == Deferred {
        r := r.(deferred := r.deferred + 1);
      } else if status == UnknownProviderState {
        r := r.(unknown := r.unknown + 1);
      }
      if record.value.amountMinor != target.amountMinor || record.value.currency != target.currency {
        r := r.(violations := r.violations + 1);
      }
    }

    method EvaluateProposals(items: seq<Item>)
      returns (records: seq<ExecutionRecord>, report: Report, ghost lines: seq<Line>)
      requires service.manager.Valid()
      modifies service.manager, service.provider, service.auditLogger
      ensures service.manager.Valid()
      ensures (service.State(), lines) == ProcessAll(service.config, old(service.State()), items)
      ensures Shows(records, AnswersOf(lines)) && Accounts(lines, report)
    {
      hide Execute, Balanced, ExecutionService.State, Shows, AnswersOf;
      NothingShown();
      records, lines := [], [];
      var books := Books(0, 0, 0, 0, 0, 0, 0, 0, 0, 0, 0, 0, 0, 0);
      EmptyBooks();
      for i := 0 to |items|
        invariant service.manager.Valid()
        invariant (service.State(), lines) == ProcessAll(service.config, old(service.State()), items[..i])
        invariant Shows(records, AnswersOf(lines)) && Balanced(lines, books)
      {
        var target := items[i].target;
        ghost var answers := AnswersOf(lines);
        assert items[..i + 1][..i] == items[..i];
        if items[i].result.decision != Approved {
          books := Enter(books, target, false, None, lines, Line(target, NotAsked));
          AnswersAppend(lines, Line(target, NotAsked));
          lines := lines + [Line(target, NotAsked)];
        } else {
          var record, reply := ExecuteRecovery(items[i], records, answers);
          books := Enter(books, target, true, record, lines, Line(target, reply));
          AnswersAppend(lines, Line(target, reply));
          lines := lines + [Line(target, reply)];
          if record.Some? {
            ShowsAppend(records, answers, record.value);
            records := records + [record.value];
          }
        }
      }
      assert items[..|items|] == items;
      report := Report(|items|, books, 0, 0, Bps(books.violations, books.attempted));
    }

    lemma ShowsAppend(records: seq<ExecutionRecord>, answers: seq<Record>, record: ExecutionRecord)
      requires Shows(records, answers)
      ensures Shows(records + [record], answers + [record.Snapshot()])
    {
    }

    lemma NothingShown()
      ensures Shows([], AnswersOf([]))
    {
    }

    lemma EmptyBooks()
      ensures Balanced([], Books(0, 0, 0, 0, 0, 0, 0, 0, 0, 0, 0, 0, 0, 0))
    {
    }
  }

  // ---------------------------------------------------------------------------
  // What the service can answer
  // ---------------------------------------------------------------------------

  predicate StoredStatuses(records: seq<Record>) {
    forall k :: 0 <= k < |records| ==> records[k].status in STORED_STATUSES
  }

  /** However executions and webhooks interleave, the registry only ever holds records in
      one of five statuses, and an answer from the provider ends in one of three. */
  lemma {:induction false} ReachableStatuses(config: ExecutionConfig, events: seq<ExecEvent>)
    ensures StoredStatuses(RunWorld(config, events).exec.records)
  {
    SoundAlways(config, events);
    var w := RunWorld(config, events);
    forall k | 0 <= k < |w.exec.records| ensures w.exec.records[k].status in STORED_STATUSES {
      StoredStatus(w, k);
    }
  }

  lemma AnsweredStatus(r: Record, outcome: ProviderOutcome)
    ensures Answered(r, outcome).status in {Succeeded, Failed, UnknownProviderState}
  {
  }

  /** What one item does to the registry, and what is answered. */
  lemma ProcessShape(config: ExecutionConfig, st: ExecState, item: Item)
    ensures var (after, line) := Process(config, st, item);
            && line.target == item.target
            && (match line.reply
                case NotAsked => after == st
                case Refusal => after == st
                case Answer(r, false) =>
                  after == st && r in st.records && r.key == RequestKey(config, RequestOf(item))
                case Answer(r, true) =>
                  && after.records == st.records + [r] && after.inFlight == st.inFlight - {r.key}
                  && r.key == RequestKey(config, RequestOf(item)) && r.proposalId == item.proposal.proposalId
                  && Revalidate(config, item.proposal, item.target, item.result).None?
                  && r.action == item.proposal.action
                  && r.amountMinor == item.target.amountMinor && r.currency == item.target.currency
                  && r.status in {Deferred, Succeeded, Failed, UnknownProviderState})
  {
    hide Revalidate, RequestKey, EventOf, RequestFor, StatusFor, ErrorFor;
    var req := RequestOf(item);
    TakeKeyShape(st, req, RequestKey(config, req), item.id);
    var outcome := Begin(config, st, req, item.id).1;
    if outcome.Awaiting? {
      AnsweredStatus(outcome.record, item.outcome);
    }
  }

  lemma {:induction false} AnswersHaveStoredStatuses(config: ExecutionConfig, st: ExecState, items: seq<Item>)
    requires StoredStatuses(st.records)
    ensures var (after, lines) := ProcessAll(config, st, items);
            StoredStatuses(after.records)
            && forall i :: 0 <= i < |lines| && lines[i].reply.Answer? ==>
                 lines[i].reply.record.status in STORED_STATUSES
  {
    if items != [] {
      hide Process;
      AnswersHaveStoredStatuses(config, st, items[..|items| - 1]);
      ProcessShape(config, ProcessAll(config, st, items[..|items| - 1]).0, items[|items| - 1]);
    }
  }

  // ---------------------------------------------------------------------------
  // The laws of the books
  // ---------------------------------------------------------------------------

  const OPEN_AMOUNT: Line -> int :=
    (line: Line) => if Has(line, Deferred) || Has(line, UnknownProviderState) then line.target.amountMinor else 0

  lemma {:induction false} LinesPartition(lines: seq<Line>)
    requires forall i :: 0 <= i < |lines| && lines[i].reply.Answer? ==> lines[i].reply.record.status in STORED_STATUSES
    ensures Total(lines, AUTHORIZED)
         == Total(lines, WITH_STATUS(Succeeded)) + Total(lines, WITH_STATUS(Failed)) + Total(lines, REFUSED)
          + Total(lines, WITH_STATUS(Deferred)) + Total(lines, WITH_STATUS(UnknownProviderState))
          + Total(lines, WITH_STATUS(Reconciled))
    ensures Total(lines, AUTHORIZED_AMOUNT)
         == Total(lines, RECOVERED_AMOUNT) + Total(lines, FAILED_AMOUNT) + Total(lines, OPEN_AMOUNT)
  {
    if lines != [] {
      LinesPartition(lines[..|lines| - 1]);
    }
  }

  lemma {:induction false} AmountsOrdered(lines: seq<Line>)
    requires forall i :: 0 <= i < |lines| ==> lines[i].target.amountMinor >= 0
    ensures 0 <= Total(lines, RECOVERED_AMOUNT) && 0 <= Total(lines, FAILED_AMOUNT) && 0 <= Total(lines, OPEN_AMOUNT)
    ensures Total(lines, AUTHORIZED_AMOUNT) <= Total(lines, AT_RISK)
  {
    if lines != [] {
      AmountsOrdered(lines[..|lines| - 1]);
    }
  }

  /** From any state that executions and webhooks can reach, every authorized item ends in
      exactly one of five counts, and its money in recovered, failed or still open. */
  lemma {:induction false} BooksBalance(config: ExecutionConfig, events: seq<ExecEvent>, items: seq<Item>, r: Report)
    requires Accounts(ProcessAll(config, RunWorld(config, events).exec, items).1, r)
    ensures var b := r.books;
            b.authorized == b.succeeded + b.failed + b.deferred + b.unknown + b.reconciled
    ensures (forall i :: 0 <= i < |items| ==> items[i].target.amountMinor >= 0) ==>
              && 0 <= r.books.recoveredAmount && 0 <= r.books.failedAmount
              && r.books.recoveredAmount + r.books.failedAmount <= r.books.authorizedAmount <= r.books.atRiskAmount
  {
    hide RunWorld, ProcessAll, Total;
    var st := RunWorld(config, events).exec;
    var lines := ProcessAll(config, st, items).1;
    ReachableStatuses(config, events);
    AnswersHaveStoredStatuses(config, st, items);
    LinesPartition(lines);
    if forall i :: 0 <= i < |items| ==> items[i].target.amountMinor >= 0 {
      LinesKeepTargets(config, st, items);
      AmountsOrdered(lines);
    }
  }

  lemma {:induction false} LinesKeepTargets(config: ExecutionConfig, st: ExecState, items: seq<Item>)
    ensures forall i :: 0 <= i < |items| ==> ProcessAll(config, st, items).1[i].target == items[i].target
  {
    if items != [] {
      hide Process;
      LinesKeepTargets(config, st, items[..|items| - 1]);
      ProcessShape(config, ProcessAll(config, st, items[..|items| - 1]).0, items[|items| - 1]);
    }
  }

  function SucceededTotal(records: seq<Record>): int {
    if records == [] then 0
    else
      var r := records[|records| - 1];
      SucceededTotal(records[..|records| - 1]) + (if r.status == Succeeded then r.amountMinor else 0)
  }

  /** Money reported for an answer that was only a repetition of an earlier one. */
  const REPEATED_AMOUNT: Line -> int :=
    (line: Line) =>
      if line.reply.Answer? && !line.reply.isNew && line.reply.record.status in {Succeeded, Reconciled}
      then line.target.amountMinor else 0

  lemma SucceededAppend(records: seq<Record>, r: Record)
    ensures SucceededTotal(records + [r])
            == SucceededTotal(records) + (if r.status == Succeeded then r.amountMinor else 0)
  {
  }

  /** The recovered amount is the money that the run added to the succeeded records of the
      registry, plus what was reported again for repeated requests. */
  lemma {:induction false} RecoveredExactly(config: ExecutionConfig, st: ExecState, items: seq<Item>)
    ensures var (after, lines) := ProcessAll(config, st, items);
            Total(lines, RECOVERED_AMOUNT)
            == SucceededTotal(after.records) - SucceededTotal(st.records) + Total(lines, REPEATED_AMOUNT)
  {
    if items != [] {
      var n := |items| - 1;
      RecoveredExactly(config, st, items[..n]);
      hide Process;
      var (before, lines) := ProcessAll(config, st, items[..n]);
      var line := Process(config, before, items[n]).1;
      ProcessShape(config, before, items[n]);
      if line.reply.Answer? {
        SucceededAppend(before.records, line.reply.record);
      }
      TotalAppend(lines, line, RECOVERED_AMOUNT);
      TotalAppend(lines, line, REPEATED_AMOUNT);
    }
  }

  // ---------------------------------------------------------------------------
  // Distinct targets
  // ---------------------------------------------------------------------------

  function ProposalTarget(item: Item): TargetKey {
    TargetKey(item.proposal.targetType, item.proposal.targetId)
  }

  predicate DistinctTargets(items: seq<Item>) {
    forall i, j :: 0 <= i < j < |items| ==> ProposalTarget(items[i]) != ProposalTarget(items[j])
  }

  function IdOf(key: TargetKey): Uuid {
    DeriveProposalId(DECISION_VERSION, POLICY_VERSION, key.targetType, key.targetId)
  }

  function IdsOf(items: seq<Item>): set<Uuid> {
    if items == [] then {} else IdsOf(items[..|items| - 1]) + {IdOf(ProposalTarget(items[|items| - 1]))}
  }

  lemma {:induction false} NotAmong(items: seq<Item>, key: TargetKey)
    requires forall i :: 0 <= i < |items| ==> ProposalTarget(items[i]) != key
    ensures IdOf(key) !in IdsOf(items)
  {
    if items != [] {
      hide DeriveProposalId;
      var last := ProposalTarget(items[|items| - 1]);
      NotAmong(items[..|items| - 1], key);
      if IdOf(last) == IdOf(key) {
        ProposalIdIdentifiesTarget(DECISION_VERSION, POLICY_VERSION, last.targetType, last.targetId,
                                   key.targetType, key.targetId);
      }
    }
  }

  /** Every record was stored for one of these proposals, under the key derived from it. */
  predicate StoredFor(config: ExecutionConfig, records: seq<Record>, ids: set<Uuid>) {
    forall k :: 0 <= k < |records| ==>
      && records[k].proposalId in ids
      && records[k].key
         == DeriveExecutionKey(records[k].proposalId, config.gatewayVersion, config.policyVersion,
                               ActionName(records[k].action))
  }

  lemma AcceptedKey(config: ExecutionConfig, item: Item)
    requires Revalidate(config, item.proposal, item.target, item.result).None?
    ensures item.proposal.proposalId == IdOf(ProposalTarget(item))
    ensures RequestKey(config, RequestOf(item))
         == DeriveExecutionKey(IdOf(ProposalTarget(item)), config.gatewayVersion, config.policyVersion,
                               ActionName(item.proposal.action))
  {
  }

  /** A new proposal is never answered with an old record. */
  lemma {:induction false} NewProposalIsNew(config: ExecutionConfig, st: ExecState, ids: set<Uuid>, item: Item)
    requires StoredFor(config, st.records, ids) && st.inFlight == {}
    requires IdOf(ProposalTarget(item)) !in ids
    ensures var (after, line) := Process(config, st, item);
            && StoredFor(config, after.records, ids + {IdOf(ProposalTarget(item))}) && after.inFlight == {}
            && (line.reply.Answer? ==> line.reply.isNew)
  {
    ProcessShape(config, st, item);
    var accepted := Revalidate(config, item.proposal, item.target, item.result).None?;
    if accepted {
      AcceptedKey(config, item);
    }
    ExistingNeedsRecheck(config, st, item);
    KeyNotStored(config, st.records, ids, IdOf(ProposalTarget(item)), item.proposal.action);
    hide Process, IdOf, DeriveExecutionKey, Revalidate, RequestKey;
  }

  lemma KeyNotStored(config: ExecutionConfig, records: seq<Record>, ids: set<Uuid>, id: Uuid, action: Action)
    requires StoredFor(config, records, ids) && id !in ids
    ensures forall r :: r in records ==>
              r.key != DeriveExecutionKey(id, config.gatewayVersion, config.policyVersion, ActionName(action))
  {
    hide DeriveExecutionKey;
    forall r | r in records
               && r.key == DeriveExecutionKey(id, config.gatewayVersion, config.policyVersion, ActionName(action))
      ensures false
    {
      ExecutionKeyIdentifiesProposal(config.gatewayVersion, config.policyVersion, r.proposalId, ActionName(r.action),
                                     id, ActionName(action));
    }
  }

  lemma ExistingNeedsRecheck(config: ExecutionConfig, st: ExecState, item: Item)
    ensures Process(config, st, item).1.reply.Answer?
            ==> Revalidate(config, item.proposal, item.target, item.result).None?
  {
  }

  lemma {:induction false} NothingRepeats(config: ExecutionConfig, items: seq<Item>)
    requires DistinctTargets(items)
    ensures var (after, lines) := ProcessAll(config, NO_EXECUTIONS, items);
            && StoredFor(config, after.records, IdsOf(items)) && after.inFlight == {}
            && forall i :: 0 <= i < |lines| ==> lines[i].reply.Answer? ==> lines[i].reply.isNew
  {
    if items != [] {
      hide Process, StoredFor, IdOf;
      var n := |items| - 1;
      NothingRepeats(config, items[..n]);
      NotAmong(items[..n], ProposalTarget(items[n]));
      NewProposalIsNew(config, ProcessAll(config, NO_EXECUTIONS, items[..n]).0, IdsOf(items[..n]), items[n]);
    }
  }

  /** On distinct proposal targets, with a fresh service and nothing interfering, the
      recovered amount is exactly the money of the registry's succeeded records, and no
      record differs from its target's money. */
  lemma RecoveredOnDistinctTargets(config: ExecutionConfig, items: seq<Item>, r: Report)
    requires DistinctTargets(items)
    requires Accounts(ProcessAll(config, NO_EXECUTIONS, items).1, r)
    ensures r.books.recoveredAmount == SucceededTotal(ProcessAll(config, NO_EXECUTIONS, items).0.records)
    ensures r.books.violations == 0 && r.violationRateBps == 0
  {
    hide Process;
    var lines := ProcessAll(config, NO_EXECUTIONS, items).1;
    NothingRepeats(config, items);
    RecoveredExactly(config, NO_EXECUTIONS, items);
    NewAnswersMatch(config, NO_EXECUTIONS, items);
    NothingRepeated(lines);
  }

  lemma {:induction false} NewAnswersMatch(config: ExecutionConfig, st: ExecState, items: seq<Item>)
    ensures var lines := ProcessAll(config, st, items).1;
            forall i :: 0 <= i < |lines| && lines[i].reply.Answer? && lines[i].reply.isNew ==>
              lines[i].reply.record.amountMinor == lines[i].target.amountMinor
              && lines[i].reply.record.currency == lines[i].target.currency
  {
    if items != [] {
      hide Process;
      var n := |items| - 1;
      NewAnswersMatch(config, st, items[..n]);
      ProcessShape(config, ProcessAll(config, st, items[..n]).0, items[n]);
      assert items == items[..n] + [items[n]];
      ProcessAppend(config, st, items[..n], items[n]);
    }
  }

  lemma {:induction false} NothingRepeated(lines: seq<Line>)
    requires forall i :: 0 <= i < |lines| && lines[i].reply.Answer? ==>
               && lines[i].reply.isNew
               && lines[i].reply.record.amountMinor == lines[i].target.amountMinor
               && lines[i].reply.record.currency == lines[i].target.currency
    ensures Total(lines, REPEATED_AMOUNT) == 0 && Total(lines, VIOLATIONS) == 0
  {
    if lines != [] {
      NothingRepeated(lines[..|lines| - 1]);
    }
  }

  /** An input on which it fails: the same item twice is dispatched and stored once, but its
      money is reported twice. `Repetitions` says exactly when that happens. */
  lemma {:induction false} RepetitionIsReportedTwice(config: ExecutionConfig, item: Item, r: Report)
    requires item.result.decision == Approved && item.proposal.action != RetryLater
    requires Revalidate(config, item.proposal, item.target, item.result).None?
    requires item.outcome.Responded? && item.outcome.normalized == ProviderSuccess
    requires Accounts(ProcessAll(config, NO_EXECUTIONS, [item, item]).1, r)
    ensures r.books.recoveredAmount == 2 * item.target.amountMinor
    ensures SucceededTotal(ProcessAll(config, NO_EXECUTIONS, [item, item]).0.records) == item.target.amountMinor
    ensures |ProcessAll(config, NO_EXECUTIONS, [item, item]).0.requests| == 1
  {
    hide Revalidate, RequestKey, EventOf, RequestFor, Accounts;
    var (first, line1) := Process(config, NO_EXECUTIONS, item);
    var (second, line2) := Process(config, first, item);
    assert first.records == [line1.reply.record] && |first.requests| == 1;
    assert second == first && line2.reply == Answer(line1.reply.record, false);
    TwoItems(config, NO_EXECUTIONS, item, item);
    BooksOfTwo(line1, line2, r);
    SucceededAppend([], line1.reply.record);
  }

  lemma TwoItems(config: ExecutionConfig, st: ExecState, a: Item, b: Item)
    ensures var (first, line1) := Process(config, st, a);
            var (second, line2) := Process(config, first, b);
            ProcessAll(config, st, [a, b]) == (second, [line1, line2])
  {
    hide Process;
    var (first, line1) := Process(config, st, a);
    var (second, line2) := Process(config, first, b);
    assert ProcessAll(config, st, [a]) == (first, [line1]) by {
      assert [a] == [] + [a] && [line1] == [] + [line1];
      assert ProcessAll(config, st, []) == (st, []);
      ProcessAppend(config, st, [], a);
    }
    ProcessAppend(config, st, [a], b);
    assert [a, b] == [a] + [b] && [line1, line2] == [line1] + [line2];
  }

  lemma BooksOfTwo(a: Line, b: Line, r: Report)
    requires Accounts([a, b], r)
    ensures r.books.recoveredAmount == RECOVERED_AMOUNT(a) + RECOVERED_AMOUNT(b)
  {
    assert [a, b] == ([] + [a]) + [b];
    TotalAppend([], a, RECOVERED_AMOUNT);
    TotalAppend([] + [a], b, RECOVERED_AMOUNT);
  }
}
