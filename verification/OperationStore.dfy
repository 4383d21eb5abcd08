/** The coordinator's operation sections, and restart recovery of operations. */
module OperationStore {
  import opened Lifecycle
  import opened Text
  import opened Records

  type Ops = map<string, Operation>

  datatype OpOutcome = OpOutcome(mem: Ops, disk: Ops, reply: Reply)

  function WrittenOps(io: WriteResult, snapshot: Ops, disk: Ops): Ops {
    if io.FailedOld? then disk else snapshot
  }

  function EvictOps(m: Ops, max: nat): Ops {
    if |m| >= max then map id | id in m && !OperationTerminal(m[id].state) :: m[id] else m
  }

  /** Some unfinished operation holds the device name or the endpoint. */
  predicate Busy(m: Ops, r: Operation) {
    exists id :: id in m && !OperationTerminal(m[id].state)
                 && (m[id].device == r.device || m[id].endpoint == r.endpoint)
  }

  /** Finished operations are kept as they are or evicted. */
  ghost predicate KeepsFinished(before: Ops, after: Ops) {
    forall id :: id in before && id in after && OperationTerminal(before[id].state) ==> after[id] == before[id]
  }

  /** Evictions made on the way stay made, whatever the answer. */
  function InsertOp(max: nat, m: Ops, disk: Ops, r: Operation, io: WriteResult): OpOutcome {
    var kept := EvictOps(m, max);
    if |kept| >= max then OpOutcome(kept, disk, Refused(StoreFull))
    else if Busy(kept, r) then OpOutcome(kept, disk, Refused(DeviceBusy))
    else
      var n := kept[r.id := r];
      if io.Durable? then OpOutcome(n, n, Done)
      else OpOutcome(kept - {r.id}, WrittenOps(io, n, disk), Refused(PersistFailed))
  }

  function UpdateOp(m: Ops, disk: Ops, r: Operation, io: WriteResult): OpOutcome {
    var n := m[r.id := r];
    if io.Durable? then OpOutcome(n, n, Done) else OpOutcome(m, WrittenOps(io, n, disk), Refused(PersistFailed))
  }

  /** The record leaves memory even if the file could not be written. */
  function RemoveOp(m: Ops, disk: Ops, id: string, io: WriteResult): OpOutcome {
    OpOutcome(m - {id}, WrittenOps(io, m - {id}, disk), Done)
  }

  // ---- restart ------------------------------------------------------------

  const RESTARTED: string := "server restarted during a non-terminal operation; manual reconciliation required"

  predicate InterruptedState(s: OperationState) {
    s.Staging? || s.Staged? || s.Validating? || s.Committing?
  }

  function RecoverOp(r: Operation, policy: StagedRecovery): Operation {
    if policy.Retain? && r.state.Staged? && r.jobId.None? then r
    else if InterruptedState(r.state) then r.(state := Indeterminate, details := Some(RESTARTED))
    else r
  }

  function RecoverOps(m: Ops, policy: StagedRecovery): Ops {
    map id | id in m :: RecoverOp(m[id], policy)
  }

  // ---- offline resolution -------------------------------------------------

  datatype Disposition = AsCommitted | AsDiscarded

  function StateName(s: OperationState): string {
    match s
    case Staging => "staging" case Staged => "staged" case Validating => "validating"
    case Validated => "validated" case Committing => "committing" case Committed => "committed"
    case Discarded => "discarded" case Failed => "failed" case Indeterminate => "indeterminate"
  }

  function Word(d: Disposition): string {
    if d.AsCommitted? then "COMMITTED" else "DISCARDED"
  }

  function Resolved(r: Operation, d: Disposition): Operation {
    r.(state := if d.AsCommitted? then Committed else Discarded,
       lockHeld := false,
       details := Some("operator marked " + Word(d) + " from " + StateName(r.state)
                       + " after external device job/candidate/lock reconciliation"))
  }
}
