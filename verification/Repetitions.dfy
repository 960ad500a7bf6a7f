/** When the execution report overstates recovered money, told from the items alone. */
module Repetitions {
  import opened Domain
  import opened StateMachine
  import opened ExecutionSpec
  import opened ExecutionRuns
  import opened ExecutionAccounting
  import opened Totals
  import opened Sequences

  /** The item is an approval that passes the recheck, so the service takes its key. */
  predicate Accepted(config: ExecutionConfig, item: Item) {
    item.result.decision == Approved && Revalidate(config, item.proposal, item.target, item.result).None?
  }

  function KeyOfItem(config: ExecutionConfig, item: Item): string {
    RequestKey(config, RequestOf(item))
  }

  /** The first accepted item with this key: the only one that is really executed. */
  function FirstWith(config: ExecutionConfig, items: seq<Item>, key: string): Option<Item> {
    if items == [] then None
    else
      var item := items[|items| - 1];
      var earlier := FirstWith(config, items[..|items| - 1], key);
      if earlier.Some? then earlier
      else if Accepted(config, item) && KeyOfItem(config, item) == key then Some(item)
      else None
  }

  /** The provider was asked for this item and reported a success. */
  predicate Succeeds(item: Item) {
    item.proposal.action != RetryLater && item.outcome.Responded? && item.outcome.normalized == ProviderSuccess
  }

  /** The item repeats the key of an earlier accepted item whose execution succeeded. */
  predicate RepeatsSuccess(config: ExecutionConfig, earlier: seq<Item>, item: Item) {
    && Accepted(config, item)
    && var first := FirstWith(config, earlier, KeyOfItem(config, item));
       first.Some? && Succeeds(first.value)
  }

  /** The item repeats the key of an earlier accepted item that had another amount or currency. */
  predicate RepeatsWithOtherMoney(config: ExecutionConfig, earlier: seq<Item>, item: Item) {
    && Accepted(config, item)
    && var first := FirstWith(config, earlier, KeyOfItem(config, item));
       && first.Some?
       && (first.value.target.amountMinor != item.target.amountMinor
          || first.value.target.currency != item.target.currency)
  }

  function OtherMoneyRepeats(config: ExecutionConfig, items: seq<Item>): nat {
    if items == [] then 0
    else
      var n := |items| - 1;
      OtherMoneyRepeats(config, items[..n]) + (if RepeatsWithOtherMoney(config, items[..n], items[n]) then 1 else 0)
  }

  /** What an item is answered, told from it and the items before it: nothing when it was not
      approved, an error when the recheck refuses it, and otherwise what the first accepted
      item with its key came to, be that an earlier one or itself. */
  predicate AnsweredAs(config: ExecutionConfig, earlier: seq<Item>, item: Item, line: Line) {
    var first := FirstWith(config, earlier, KeyOfItem(config, item));
    && line.target == item.target
    && (line.reply.NotAsked? <==> item.result.decision != Approved)
    && (line.reply.Answer? <==> Accepted(config, item))
    && (Accepted(config, item) ==>
          && (line.reply.isNew <==> first.None?)
          && line.reply.record.status == StatusOfItem(if first.Some? then first.value else item)
          && line.reply.record.amountMinor == (if first.Some? then first.value else item).target.amountMinor
          && line.reply.record.currency == (if first.Some? then first.value else item).target.currency)
  }

  lemma AcceptedIsApproved(config: ExecutionConfig, item: Item)
    ensures Accepted(config, item) ==> item.result.decision == Approved
  {
  }

  /** The money of the items that repeat a success. */
  function RepeatedMoney(config: ExecutionConfig, items: seq<Item>): int {
    if items == [] then 0
    else
      var n := |items| - 1;
      RepeatedMoney(config, items[..n])
      + (if RepeatsSuccess(config, items[..n], items[n]) then items[n].target.amountMinor else 0)
  }

  function StatusOfItem(item: Item): Status {
    if item.proposal.action == RetryLater then Deferred else StatusFor(item.outcome)
  }

  /** What executing an item leaves in the registry. */
  datatype Came = Came(status: Status, amount: int, currency: string)

  function CameOf(item: Item): Came {
    Came(StatusOfItem(item), item.target.amountMinor, item.target.currency)
  }

  /** Without other tasks an item is refused, answered from the registry, or executed, each
      exactly when the recheck and the registry say so. */
  lemma {:induction false} ProcessExactly(config: ExecutionConfig, st: ExecState, item: Item)
    requires st.inFlight == {}
    ensures var (after, line) := Process(config, st, item);
            var key := KeyOfItem(config, item);
            && line.target == item.target
            && if item.result.decision != Approved then after == st && line.reply == NotAsked
               else if !Accepted(config, item) then after == st && line.reply == Refusal
               else if StoredUnder(st.records, key) then
                 after == st && line.reply == Answer(st.records[Position(st.records, key)], false)
               else
                 && line.reply.Answer? && line.reply.isNew && after.inFlight == {}
                 && after.records == st.records + [line.reply.record]
                 && line.reply.record.key == key && Shown(line.reply.record) == CameOf(item)
  {
    hide Revalidate, RequestKey, EventOf, RequestFor, StatusFor, ErrorFor;
    var req := RequestOf(item);
    TakeKeyShape(st, req, RequestKey(config, req), item.id);
  }

  function Shown(r: Record): Came {
    Came(r.status, r.amountMinor, r.currency)
  }

  /** The registry holds, for each key, what its first accepted item came to. */
  ghost predicate RegistryTells(config: ExecutionConfig, st: ExecState, items: seq<Item>) {
    && st.inFlight == {}
    && forall key :: CameUnder(st.records, key)
                     == (var first := FirstWith(config, items, key);
                         if first.Some? then Some(CameOf(first.value)) else None)
  }

  function CameUnder(records: seq<Record>, key: string): Option<Came> {
    var i := Position(records, key);
    if i < |records| then Some(Shown(records[i])) else None
  }

  lemma {:induction false} CameAppend(records: seq<Record>, r: Record, key: string)
    ensures CameUnder(records + [r], key)
         == if CameUnder(records, key).Some? then CameUnder(records, key)
            else if r.key == key then Some(Shown(r)) else None
  {
    if records == [] {
      assert (records + [r])[1..] == [];
    } else {
      assert (records + [r])[1..] == records[1..] + [r];
      CameAppend(records[1..], r, key);
    }
  }

  lemma FirstAppend(config: ExecutionConfig, items: seq<Item>, item: Item, key: string)
    ensures FirstWith(config, items + [item], key)
         == if FirstWith(config, items, key).Some? then FirstWith(config, items, key)
            else if Accepted(config, item) && KeyOfItem(config, item) == key then Some(item) else None
  {
    hide Accepted, KeyOfItem;
    AppendParts(items, item);
  }

  lemma {:induction false} ProcessKeepsTelling(config: ExecutionConfig, st: ExecState, items: seq<Item>, item: Item)
    requires RegistryTells(config, st, items)
    ensures RegistryTells(config, Process(config, st, item).0, items + [item])
  {
    ProcessExactly(config, st, item);
    var (after, line) := Process(config, st, item);
    var own := KeyOfItem(config, item);
    hide Process, Accepted, KeyOfItem, FirstWith, CameOf;
    assert CameUnder(st.records, own).Some? <==> FirstWith(config, items, own).Some?;
    forall key
      ensures CameUnder(after.records, key)
              == (var first := FirstWith(config, items + [item], key);
                  if first.Some? then Some(CameOf(first.value)) else None)
    {
      FirstAppend(config, items, item, key);
      if Accepted(config, item) && !StoredUnder(st.records, own) {
        CameAppend(st.records, line.reply.record, key);
      }
    }
  }

  lemma {:induction false} ProcessTells(config: ExecutionConfig, st: ExecState, items: seq<Item>, item: Item)
    requires RegistryTells(config, st, items)
    ensures RegistryTells(config, Process(config, st, item).0, items + [item])
    ensures REPEATED_AMOUNT(Process(config, st, item).1)
         == if RepeatsSuccess(config, items, item) then item.target.amountMinor else 0
    ensures VIOLATIONS(Process(config, st, item).1) == if RepeatsWithOtherMoney(config, items, item) then 1 else 0
    ensures AnsweredAs(config, items, item, Process(config, st, item).1)
  {
    ProcessKeepsTelling(config, st, items, item);
    ProcessExactly(config, st, item);
    AcceptedIsApproved(config, item);
    OutcomeTells(item);
    var own := KeyOfItem(config, item);
    assert CameUnder(st.records, own)
        == (var first := FirstWith(config, items, own); if first.Some? then Some(CameOf(first.value)) else None);
    if FirstWith(config, items, own).Some? {
      OutcomeTells(FirstWith(config, items, own).value);
    }
    hide Process, Accepted, KeyOfItem, FirstWith, StatusOfItem, RegistryTells, Position;
  }

  lemma OutcomeTells(item: Item)
    ensures StatusOfItem(item) in {Deferred, Succeeded, Failed, UnknownProviderState}
    ensures StatusOfItem(item) == Succeeded <==> Succeeds(item)
  {
  }

  lemma {:induction false} RepeatedMoneyIsReported(config: ExecutionConfig, items: seq<Item>)
    ensures var (after, lines) := ProcessAll(config, NO_EXECUTIONS, items);
            && RegistryTells(config, after, items)
            && Total(lines, REPEATED_AMOUNT) == RepeatedMoney(config, items)
  {
    hide ProcessAll, RegistryTells, RepeatedMoney, OtherMoneyRepeats, LinesTold, Total;
    if items == [] {
      NothingStored(config);
    } else {
      var front, item := items[..|items| - 1], items[|items| - 1];
      RepeatedMoneyIsReported(config, front);
      assert items == front + [item];
      OneMoreReported(config, front, item);
    }
  }

  ghost predicate LinesTold(config: ExecutionConfig, items: seq<Item>, lines: seq<Line>) {
    |lines| == |items| && forall i :: 0 <= i < |items| ==> AnsweredAs(config, items[..i], items[i], lines[i])
  }

  /** For a fresh service: every line is told by the items, and the integrity violations are
      exactly the accepted items that repeat a key with another amount or currency. */
  lemma {:induction false} LinesAreTold(config: ExecutionConfig, items: seq<Item>)
    ensures var lines := ProcessAll(config, NO_EXECUTIONS, items).1;
            && LinesTold(config, items, lines)
            && Total(lines, VIOLATIONS) == OtherMoneyRepeats(config, items)
  {
    hide ProcessAll, LinesTold, RegistryTells, OtherMoneyRepeats, Total;
    if items == [] {
      NothingStored(config);
    } else {
      var front, item := items[..|items| - 1], items[|items| - 1];
      LinesAreTold(config, front);
      RepeatedMoneyIsReported(config, front);
      assert items == front + [item];
      OneMoreTold(config, front, item);
    }
  }

  lemma {:induction false} OneMoreTold(config: ExecutionConfig, items: seq<Item>, item: Item)
    requires RegistryTells(config, ProcessAll(config, NO_EXECUTIONS, items).0, items)
    requires var lines := ProcessAll(config, NO_EXECUTIONS, items).1;
             && LinesTold(config, items, lines)
             && Total(lines, VIOLATIONS) == OtherMoneyRepeats(config, items)
    ensures var all, lines := items + [item], ProcessAll(config, NO_EXECUTIONS, items + [item]).1;
            && LinesTold(config, all, lines)
            && Total(lines, VIOLATIONS) == OtherMoneyRepeats(config, all)
  {
    OtherMoneyAppend(config, items, item);
    hide Process, ProcessAll, RegistryTells, AnsweredAs, RepeatsWithOtherMoney, OtherMoneyRepeats, Total;
    var (st, lines) := ProcessAll(config, NO_EXECUTIONS, items);
    var line := Process(config, st, item).1;
    ProcessAppend(config, NO_EXECUTIONS, items, item);
    ProcessTells(config, st, items, item);
    TotalAppend(lines, line, VIOLATIONS);
    forall i | 0 <= i < |items + [item]|
      ensures AnsweredAs(config, (items + [item])[..i], (items + [item])[i], (lines + [line])[i])
    {
      if i < |items| {
        assert (items + [item])[..i] == items[..i];
        assert AnsweredAs(config, items[..i], items[i], lines[i]);
      } else {
        assert (items + [item])[..i] == items;
      }
    }
  }

  lemma OtherMoneyAppend(config: ExecutionConfig, items: seq<Item>, item: Item)
    ensures OtherMoneyRepeats(config, items + [item])
         == OtherMoneyRepeats(config, items) + (if RepeatsWithOtherMoney(config, items, item) then 1 else 0)
  {
    hide RepeatsWithOtherMoney;
    AppendParts(items, item);
  }

  lemma {:induction false} OneMoreReported(config: ExecutionConfig, items: seq<Item>, item: Item)
    requires var (st, lines) := ProcessAll(config, NO_EXECUTIONS, items);
             RegistryTells(config, st, items) && Total(lines, REPEATED_AMOUNT) == RepeatedMoney(config, items)
    ensures var (st, lines) := ProcessAll(config, NO_EXECUTIONS, items + [item]);
            && RegistryTells(config, st, items + [item])
            && Total(lines, REPEATED_AMOUNT) == RepeatedMoney(config, items + [item])
  {
    RepeatedAppend(config, items, item);
    hide Process, ProcessAll, RegistryTells, RepeatsSuccess, RepeatedMoney, Total;
    var (st, lines) := ProcessAll(config, NO_EXECUTIONS, items);
    ProcessAppend(config, NO_EXECUTIONS, items, item);
    ProcessTells(config, st, items, item);
    TotalAppend(lines, Process(config, st, item).1, REPEATED_AMOUNT);
  }

  lemma NothingStored(config: ExecutionConfig)
    ensures var (st, lines) := ProcessAll(config, NO_EXECUTIONS, []);
            RegistryTells(config, st, []) && Total(lines, REPEATED_AMOUNT) == 0 == RepeatedMoney(config, [])
            && Total(lines, VIOLATIONS) == 0 == OtherMoneyRepeats(config, []) && LinesTold(config, [], lines)
  {
  }

  lemma RepeatedAppend(config: ExecutionConfig, items: seq<Item>, item: Item)
    ensures RepeatedMoney(config, items + [item])
         == RepeatedMoney(config, items) + (if RepeatsSuccess(config, items, item) then item.target.amountMinor else 0)
  {
    hide RepeatsSuccess;
    AppendParts(items, item);
  }

  /** Item `i` repeats a success among the items before it. */
  predicate RepeatsAt(config: ExecutionConfig, items: seq<Item>, i: nat)
    requires i < |items|
  {
    RepeatsSuccess(config, items[..i], items[i])
  }

  lemma {:induction false} RepeatsInFront(config: ExecutionConfig, items: seq<Item>, item: Item)
    ensures forall i :: 0 <= i < |items| ==> (RepeatsAt(config, items + [item], i) <==> RepeatsAt(config, items, i))
    ensures RepeatsAt(config, items + [item], |items|) <==> RepeatsSuccess(config, items, item)
  {
    hide RepeatsSuccess;
    AppendParts(items, item);
    forall i | 0 <= i < |items| ensures RepeatsAt(config, items + [item], i) <==> RepeatsAt(config, items, i) {
      assert (items + [item])[..i] == items[..i];
    }
  }

  lemma {:induction false} RepeatedMoneyIsPositive(config: ExecutionConfig, items: seq<Item>)
    ensures RepeatedMoney(config, items) >= 0
    ensures RepeatedMoney(config, items) == 0 <==> forall i :: 0 <= i < |items| ==> !RepeatsAt(config, items, i)
  {
    if items == [] {
      NothingStored(config);
    } else {
      var front, item := items[..|items| - 1], items[|items| - 1];
      RepeatedIsPositive(config, front, item);
      hide RepeatsSuccess, RepeatsAt, RepeatedMoney;
      RepeatedMoneyIsPositive(config, front);
      assert items == front + [item];
      RepeatsInFront(config, front, item);
      RepeatedAppend(config, front, item);
      if forall i :: 0 <= i < |front| ==> !RepeatsAt(config, front, i) {
        forall i | 0 <= i < |front| ensures !RepeatsAt(config, items, i) {
          assert !RepeatsAt(config, front, i);
        }
      } else {
        var i :| 0 <= i < |front| && RepeatsAt(config, front, i);
        assert RepeatsAt(config, items, i);
      }
    }
  }

  lemma RepeatedIsPositive(config: ExecutionConfig, earlier: seq<Item>, item: Item)
    ensures RepeatsSuccess(config, earlier, item) ==> item.target.amountMinor > 0
  {
    hide KeyOfItem, FirstWith, Succeeds;
  }

  /** For a fresh service the report overstates recovered money by exactly the money of the
      items that repeat a success. */
  lemma {:induction false} OverstatedBy(config: ExecutionConfig, items: seq<Item>, r: Report)
    requires Accounts(ProcessAll(config, NO_EXECUTIONS, items).1, r)
    ensures r.books.recoveredAmount
         == SucceededTotal(ProcessAll(config, NO_EXECUTIONS, items).0.records) + RepeatedMoney(config, items)
  {
    hide ProcessAll, RepeatedMoney, Total, RegistryTells;
    RecoveredExactly(config, NO_EXECUTIONS, items);
    RepeatedMoneyIsReported(config, items);
  }

  /** For a fresh service, recovered equals the registry's succeeded money if and only if no
      accepted item repeats the key of an earlier accepted item whose execution succeeded. */
  lemma {:induction false} RecoveredIffNoSuccessRepeats(config: ExecutionConfig, items: seq<Item>, r: Report)
    requires Accounts(ProcessAll(config, NO_EXECUTIONS, items).1, r)
    ensures r.books.recoveredAmount == SucceededTotal(ProcessAll(config, NO_EXECUTIONS, items).0.records)
            <==> forall i :: 0 <= i < |items| ==> !RepeatsAt(config, items, i)
  {
    hide ProcessAll, RepeatedMoney, Accounts, RepeatsAt;
    OverstatedBy(config, items, r);
    RepeatedMoneyIsPositive(config, items);
  }
}
