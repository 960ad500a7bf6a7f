/** Identifiers: version 4 (random) and version 5 (name based) UUIDs, and the seed
    strings from which proposal ids and execution keys are derived.

    A version 5 UUID is modelled as a free constructor over its name, that is, as an
    injective hash. `Text` stands for `str(uuid)`. The real text is 36 characters wide,
    hence can be cut off either end of a longer string without ambiguity; `Text` has
    exactly that property. */
module Identity {

  datatype Uuid = Random(serial: nat) | Named(name: string)

  function Zeros(n: nat): (s: string)
    ensures |s| == n && forall i :: 0 <= i < n ==> s[i] == '0'
  {
    seq(n, _ => '0')
  }

  function Mark(u: Uuid): string {
    if u.Random? then "4" else "5"
  }

  function Body(u: Uuid): string {
    match u
    case Random(serial) => Zeros(serial)
    case Named(name) => name
  }

  function Text(u: Uuid): string {
    Mark(u) + Zeros(|Body(u)|) + "." + Body(u) + "." + Zeros(|Body(u)|) + Mark(u)
  }

  lemma TextLayout(u: Uuid)
    ensures |Text(u)| == 3 * |Body(u)| + 4
    ensures Text(u)[0] == Mark(u)[0] && Text(u)[|Text(u)| - 1] == Mark(u)[0]
    ensures Text(u)[1 + |Body(u)|] == '.' && Text(u)[2 + 2 * |Body(u)|] == '.'
    ensures Text(u)[2 + |Body(u)|..2 + 2 * |Body(u)|] == Body(u)
  {
  }

  lemma TextZeros(u: Uuid, k: nat)
    requires k < |Body(u)|
    ensures |Text(u)| == 3 * |Body(u)| + 4
    ensures Text(u)[1 + k] == '0' && Text(u)[2 + 3 * |Body(u)| - k] == '0'
  {
  }

  lemma SameBodyAndMark(a: Uuid, b: Uuid)
    requires Mark(a) == Mark(b) && Body(a) == Body(b)
    ensures a == b
  {
  }

  /** A uuid text can be cut off the front of a string in only one way. */
  lemma TextCutsFromFront(a: Uuid, x: string, b: Uuid, y: string)
    requires Text(a) + x == Text(b) + y
    ensures a == b && x == y
  {
    NoLongerFromFront(a, x, b, y);
    NoLongerFromFront(b, y, a, x);
    TextLayout(a);
    TextLayout(b);
    var s, t := Text(a) + x, Text(b) + y;
    assert Text(a) == s[..|Text(a)|] == t[..|Text(b)|] == Text(b);
    assert x == s[|Text(a)|..] == t[|Text(b)|..] == y;
    SameBodyAndMark(a, b);
  }

  lemma NoLongerFromFront(a: Uuid, x: string, b: Uuid, y: string)
    requires Text(a) + x == Text(b) + y
    ensures |Body(b)| <= |Body(a)|
  {
    TextLayout(a);
    var n: nat := |Body(a)|;
    assert (Text(a) + x)[1 + n] == '.';
    if n < |Body(b)| {
      TextZeros(b, n);
    }
  }

  /** A uuid text can be cut off the end of a string in only one way. */
  lemma TextCutsFromBack(x: string, a: Uuid, y: string, b: Uuid)
    requires x + Text(a) == y + Text(b)
    ensures a == b && x == y
  {
    NoLongerFromBack(x, a, y, b);
    NoLongerFromBack(y, b, x, a);
    TextLayout(a);
    TextLayout(b);
    var s, t := x + Text(a), y + Text(b);
    assert Text(a) == s[|x|..] == t[|y|..] == Text(b);
    assert x == s[..|x|] == t[..|y|] == y;
    SameBodyAndMark(a, b);
  }

  lemma NoLongerFromBack(x: string, a: Uuid, y: string, b: Uuid)
    requires x + Text(a) == y + Text(b)
    ensures |Body(b)| <= |Body(a)|
  {
    TextLayout(a);
    var n: nat := |Body(a)|;
    assert (x + Text(a))[|x + Text(a)| - 2 - n] == '.';
    if n < |Body(b)| {
      ZeroNearEnd(y, b, n);
    }
  }

  lemma ZeroNearEnd(y: string, b: Uuid, k: nat)
    requires k < |Body(b)|
    ensures |y + Text(b)| >= 2 + k && (y + Text(b))[|y + Text(b)| - 2 - k] == '0'
  {
  }

  // ---------------------------------------------------------------------------
  // Proposal ids
  // ---------------------------------------------------------------------------

  function ProposalSeed(decisionVersion: string, policyVersion: string, targetType: string, targetId: Uuid): string {
    "recoverai-decision-" + decisionVersion + "-" + policyVersion + "-" + targetType + "-" + Text(targetId)
  }

  function DeriveProposalId(decisionVersion: string, policyVersion: string, targetType: string, targetId: Uuid): Uuid {
    Named(ProposalSeed(decisionVersion, policyVersion, targetType, targetId))
  }

  /** Under fixed versions a proposal id names exactly one (target type, target id),
      whatever the target types are. */
  lemma ProposalIdIdentifiesTarget(dv: string, pv: string, type1: string, id1: Uuid, type2: string, id2: Uuid)
    requires DeriveProposalId(dv, pv, type1, id1) == DeriveProposalId(dv, pv, type2, id2)
    ensures type1 == type2 && id1 == id2
  {
    var head := "recoverai-decision-" + dv + "-" + pv + "-";
    assert ProposalSeed(dv, pv, type1, id1) == (head + type1 + "-") + Text(id1);
    assert ProposalSeed(dv, pv, type2, id2) == (head + type2 + "-") + Text(id2);
    TextCutsFromBack(head + type1 + "-", id1, head + type2 + "-", id2);
    var s, t := head + type1 + "-", head + type2 + "-";
    assert type1 == s[|head|..|s| - 1] == t[|head|..|t| - 1] == type2;
  }

  // ---------------------------------------------------------------------------
  // Execution idempotency keys
  // ---------------------------------------------------------------------------

  function ExecutionSeed(proposalId: Uuid, gatewayVersion: string, policyVersion: string, action: string): string {
    "recoverai-exec-" + Text(proposalId) + "-" + gatewayVersion + "-" + policyVersion + "-" + action
  }

  function DeriveExecutionKey(proposalId: Uuid, gatewayVersion: string, policyVersion: string, action: string): string {
    Text(Named(ExecutionSeed(proposalId, gatewayVersion, policyVersion, action)))
  }

  lemma TextInjective(a: Uuid, b: Uuid)
    requires Text(a) == Text(b)
    ensures a == b
  {
    assert Text(a) + "" == Text(b) + "";
    TextCutsFromFront(a, "", b, "");
  }

  lemma ExecutionSeedCuts(middle: string, p1: Uuid, action1: string, p2: Uuid, action2: string)
    requires "recoverai-exec-" + (Text(p1) + (middle + action1)) == "recoverai-exec-" + (Text(p2) + (middle + action2))
    ensures p1 == p2 && action1 == action2
  {
    var head := "recoverai-exec-";
    var tail1, tail2 := Text(p1) + (middle + action1), Text(p2) + (middle + action2);
    assert tail1 == (head + tail1)[|head|..] == (head + tail2)[|head|..] == tail2;
    TextCutsFromFront(p1, middle + action1, p2, middle + action2);
    assert action1 == (middle + action1)[|middle|..] == (middle + action2)[|middle|..] == action2;
  }

  lemma ExecutionSeedLayout(p: Uuid, gv: string, pv: string, action: string)
    ensures ExecutionSeed(p, gv, pv, action)
         == "recoverai-exec-" + (Text(p) + (("-" + gv + "-" + pv + "-") + action))
  {
  }

  /** Within one service (fixed versions) a derived key names exactly one
      (proposal, action), so it never confuses two different executions. */
  lemma ExecutionKeyIdentifiesProposal(gv: string, pv: string, p1: Uuid, action1: string, p2: Uuid, action2: string)
    requires DeriveExecutionKey(p1, gv, pv, action1) == DeriveExecutionKey(p2, gv, pv, action2)
    ensures p1 == p2 && action1 == action2
  {
    TextInjective(Named(ExecutionSeed(p1, gv, pv, action1)), Named(ExecutionSeed(p2, gv, pv, action2)));
    ExecutionSeedLayout(p1, gv, pv, action1);
    ExecutionSeedLayout(p2, gv, pv, action2);
    ExecutionSeedCuts("-" + gv + "-" + pv + "-", p1, action1, p2, action2);
  }
}
