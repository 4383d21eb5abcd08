/** Lifecycle state machines for change sets and device operations. */
module Lifecycle {

  datatype ChangeSetState = Planned | Approved | Applying | Applied | Expired | Failed | Cancelled

  datatype OperationState =
    | Staging | Staged | Validating | Validated | Committing
    | Committed | Discarded | Failed | Indeterminate

  /** Whether an apply is expected to produce a vendor task handle. */
  datatype ApplyHandle = Expected | NoHandle

  /** How `Staged` operations survive a restart. */
  datatype StagedRecovery = Discard | Retain

  /** What is known after a state-file write: it is durable, or it failed with the
      file still holding the old snapshot, or it failed with the new one in place. */
  datatype WriteResult = Durable | FailedOld | FailedNew

  predicate OperationTerminal(s: OperationState) {
    s.Committed? || s.Discarded?
  }

  predicate IsPending(s: ChangeSetState) {
    s.Planned? || s.Approved? || s.Applying?
  }

  predicate IsExpirable(s: ChangeSetState) {
    s.Planned? || s.Approved?
  }

  predicate Evictable(s: ChangeSetState) {
    s.Applied? || s.Expired? || s.Failed? || s.Cancelled?
  }

  /** The closed transition table; `Approved -> Applying` is deliberately absent. */
  predicate TransitionAllowed(from: ChangeSetState, to: ChangeSetState) {
    match from
    case Planned => to.Planned? || to.Approved? || to.Expired? || to.Cancelled?
    case Approved => to.Approved? || to.Expired? || to.Cancelled?
    case Applying => to.Applying? || to.Applied? || to.Failed?
    case Applied => to.Applied? || to.Failed?
    case Expired => to.Expired? || to.Cancelled?
    case Failed => to.Failed? || to.Cancelled?
    case Cancelled => to.Cancelled?
  }

  /** The table, move by move; staying put is always allowed. */
  const MOVES: set<(ChangeSetState, ChangeSetState)> := {
    (Planned, Approved), (Planned, Expired), (Planned, Cancelled), (Approved, Expired), (Approved, Cancelled),
    (Applying, Applied), (Applying, ChangeSetState.Failed), (Applied, ChangeSetState.Failed),
    (Expired, Cancelled), (ChangeSetState.Failed, Cancelled)
  }

  lemma TableIs(from: ChangeSetState, to: ChangeSetState)
    ensures TransitionAllowed(from, to) <==> from == to || (from, to) in MOVES
  {
  }

  /** A change set is either pending or can be dropped; what can expire is pending. */
  lemma StatesFallApart(s: ChangeSetState)
    ensures IsPending(s) <==> !Evictable(s)
    ensures IsPending(s) <==> s in {Planned, Approved, Applying}
    ensures IsExpirable(s) <==> s in {Planned, Approved}
  {
  }

  /** Every move the coordinator can make: the table, plus the claim. */
  predicate Moves(from: ChangeSetState, to: ChangeSetState) {
    TransitionAllowed(from, to) || (from.Approved? && to.Applying?)
  }

  /** Position in the lifecycle; no move ever lowers it. */
  function Rank(s: ChangeSetState): nat {
    match s
    case Planned => 0
    case Approved => 1
    case Applying => 2
    case Applied => 3
    case Expired => 4
    case Failed => 5
    case Cancelled => 6
  }

  const SPENT_RANK: nat := 2

  /** Along a chain of moves, two positions hold the same state only if nothing in between
      differed: with the claim edge added, the table has no cycle but self-loops. */
  lemma {:induction false} NoStateRecurs(path: seq<ChangeSetState>, i: nat, j: nat)
    requires i <= j < |path|
    requires forall k :: 0 <= k < |path| - 1 ==> Moves(path[k], path[k + 1])
    ensures Rank(path[i]) <= Rank(path[j])
    ensures path[i] == path[j] ==> forall k :: i <= k <= j ==> path[k] == path[i]
    decreases j - i
  {
    if i < j {
      NoStateRecurs(path, i + 1, j);
      assert Moves(path[i], path[i + 1]);
      if path[i] == path[j] {
        assert path[i + 1] == path[i];
        forall k | i <= k <= j ensures path[k] == path[i] {
          if k > i {}
        }
      }
    }
  }
}
