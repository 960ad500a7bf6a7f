/** The execution lifecycle: the table of legal transitions and what every legal path obeys. */
module StateMachine {

  datatype Status =
    | Authorized
    | ExecutionStarted
    | ProviderRequested
    | Succeeded
    | Failed
    | UnknownProviderState
    | NeedsReview
    | Reconciled
    | Deferred

  const LEGAL_TRANSITIONS: map<Status, set<Status>> := map[
    Authorized := {ExecutionStarted, Deferred, NeedsReview},
    ExecutionStarted := {ProviderRequested, Failed, NeedsReview},
    ProviderRequested := {Succeeded, Failed, UnknownProviderState, NeedsReview},
    UnknownProviderState := {Reconciled, Failed, NeedsReview},
    Succeeded := {Reconciled, Failed, NeedsReview},
    Deferred := {ExecutionStarted, NeedsReview},
    Failed := {},
    Reconciled := {},
    NeedsReview := {}]

  predicate CanTransition(from: Status, to: Status) {
    from in LEGAL_TRANSITIONS && to in LEGAL_TRANSITIONS[from]
  }

  /** The table read by columns: from where each status can be reached. Terminal are exactly
      FAILED, RECONCILED and REQUIRES_REVIEW; a review is possible everywhere else. */
  lemma PredecessorsExactly(from: Status)
    ensures !CanTransition(from, Authorized)
    ensures CanTransition(from, Deferred) <==> from == Authorized
    ensures CanTransition(from, ExecutionStarted) <==> from in {Authorized, Deferred}
    ensures CanTransition(from, ProviderRequested) <==> from == ExecutionStarted
    ensures CanTransition(from, Succeeded) <==> from == ProviderRequested
    ensures CanTransition(from, UnknownProviderState) <==> from == ProviderRequested
    ensures CanTransition(from, Reconciled) <==> from in {Succeeded, UnknownProviderState}
    ensures CanTransition(from, Failed)
            <==> from in {ExecutionStarted, ProviderRequested, Succeeded, UnknownProviderState}
    ensures CanTransition(from, NeedsReview) <==> from !in {Failed, Reconciled, NeedsReview}
  {
  }

  predicate LegalPath(path: seq<Status>) {
    path != [] && forall i :: 0 <= i < |path| - 1 ==> CanTransition(path[i], path[i + 1])
  }

  /** How many transitions a status may still have ahead of it. */
  function Rank(s: Status): nat {
    match s
    case Authorized => 5
    case Deferred => 4
    case ExecutionStarted => 3
    case ProviderRequested => 2
    case Succeeded | UnknownProviderState => 1
    case Failed | Reconciled | NeedsReview => 0
  }

  lemma TransitionsLowerRank(from: Status, to: Status)
    requires CanTransition(from, to)
    ensures Rank(to) < Rank(from)
  {
  }

  /** A legal path never revisits a status and makes at most `Rank` of its start transitions. */
  lemma {:induction false} LegalPathsAreShort(path: seq<Status>)
    requires LegalPath(path)
    ensures |path| - 1 + Rank(path[|path| - 1]) <= Rank(path[0]) <= 5
    ensures forall i, j :: 0 <= i < j < |path| ==> Rank(path[j]) < Rank(path[i])
  {
    var n := |path| - 1;
    if n > 0 {
      assert CanTransition(path[n - 1], path[n]);
      LegalPathsAreShort(path[..n]);
      TransitionsLowerRank(path[n - 1], path[n]);
      forall i, j | 0 <= i < j < |path| ensures Rank(path[j]) < Rank(path[i]) {
        if j < n {
          assert Rank(path[..n][j]) < Rank(path[..n][i]);
        } else if i < n - 1 {
          assert Rank(path[..n][n - 1]) < Rank(path[..n][i]);
        }
      }
    }
  }

  /** The bound of five transitions is attained, and only from AUTHORIZED through DEFERRED. */
  lemma FiveTransitions(path: seq<Status>)
    requires LegalPath(path) && |path| == 6
    ensures path[..4] == [Authorized, Deferred, ExecutionStarted, ProviderRequested]
    ensures path[4] in {Succeeded, UnknownProviderState} && path[5] in {Failed, Reconciled, NeedsReview}
  {
    LegalPathsAreShort(path);
    assert Rank(path[1]) == 4 && Rank(path[2]) == 3 && Rank(path[3]) == 2 && Rank(path[4]) == 1 by {
      assert CanTransition(path[0], path[1]) && CanTransition(path[1], path[2]) && CanTransition(path[2], path[3]);
      assert CanTransition(path[3], path[4]) && CanTransition(path[4], path[5]);
    }
  }
}
