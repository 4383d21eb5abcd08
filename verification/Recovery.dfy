/** Restart recovery: complete, idempotent, and no more than is needed. */
module Recovery {
  import opened Lifecycle
  import opened Text
  import opened Records
  import opened ChangeSetStore
  import opened OperationStore

  function RecoverStore(s: Store, policy: StagedRecovery): Store {
    Store(RecoverOps(s.operations, policy), RecoverSets(s.changeSets))
  }

  /** An operation no restart has anything to say about. */
  predicate OperationSettled(r: Operation, policy: StagedRecovery) {
    && !r.state.Staging? && !r.state.Validating? && !r.state.Committing?
    && (r.state.Staged? ==> policy.Retain? && r.jobId.None?)
  }

  /** A change set no restart has anything to say about: an apply in flight names a vendor task
      to ask, or says there never was one. */
  predicate ChangeSetSettled(r: ChangeSet) {
    && r.taskId != Some("")
    && (r.state.Applying? ==> r.taskId.Some? || r.applyWithoutHandle)
  }

  ghost predicate Settled(s: Store, policy: StagedRecovery) {
    && (forall id :: id in s.operations ==> OperationSettled(s.operations[id], policy))
    && (forall id :: id in s.changeSets ==> ChangeSetSettled(s.changeSets[id]))
  }

  lemma RecoverOpExact(r: Operation, policy: StagedRecovery)
    ensures OperationSettled(RecoverOp(r, policy), policy)
    ensures RecoverOp(r, policy) == r <==> OperationSettled(r, policy)
    ensures var n := RecoverOp(r, policy);
            && n == r.(state := n.state, details := n.details)
            && (OperationTerminal(n.state) <==> OperationTerminal(r.state))
            && (!OperationSettled(r, policy) ==> n.state.Indeterminate? && n.details == Some(
                  "server restarted during a non-terminal operation; manual reconciliation required"))
  {
  }

  lemma RecoverSetExact(r: ChangeSet)
    ensures ChangeSetSettled(RecoverSet(r))
    ensures RecoverSet(r) == r <==> ChangeSetSettled(r)
    ensures var n := RecoverSet(r);
            && n == r.(state := n.state, taskId := n.taskId)
            && n.taskId == (if r.taskId == Some("") then None else r.taskId)
            && n.state == if r.state.Applying? && n.taskId.None? && !r.applyWithoutHandle then ChangeSetState.Failed
                          else r.state
  {
  }

  /** Recovery settles every record, leaves alone exactly the stores that are already settled
      (so recovering again changes nothing), keeps every id, and touches only what it must. */
  lemma RecoveryIsExact(s: Store, policy: StagedRecovery)
    ensures var n := RecoverStore(s, policy);
            && Settled(n, policy)
            && (n == s <==> Settled(s, policy))
            && RecoverStore(n, policy) == n
            && n.operations.Keys == s.operations.Keys && n.changeSets.Keys == s.changeSets.Keys
  {
    var n := RecoverStore(s, policy);
    RecoveryTouchesTheUnsettled(s, policy);
    RecoveryTouchesTheUnsettled(n, policy);
    forall id | id in n.operations ensures OperationSettled(n.operations[id], policy) {
      RecoverOpExact(s.operations[id], policy);
    }
    forall id | id in n.changeSets ensures ChangeSetSettled(n.changeSets[id]) {
      RecoverSetExact(s.changeSets[id]);
    }
  }

  lemma RecoveryTouchesTheUnsettled(s: Store, policy: StagedRecovery)
    ensures RecoverStore(s, policy) == s <==> Settled(s, policy)
  {
    var n := RecoverStore(s, policy);
    forall id | id in s.operations
      ensures n.operations[id] == s.operations[id] <==> OperationSettled(s.operations[id], policy)
    {
      RecoverOpExact(s.operations[id], policy);
    }
    forall id | id in s.changeSets
      ensures n.changeSets[id] == s.changeSets[id] <==> ChangeSetSettled(s.changeSets[id])
    {
      RecoverSetExact(s.changeSets[id]);
    }
    hide RecoverOp, RecoverSet, OperationSettled, ChangeSetSettled;
    if Settled(s, policy) {
      assert n.operations == s.operations;
      assert n.changeSets == s.changeSets;
    }
    if n == s {
      forall id | id in s.operations ensures OperationSettled(s.operations[id], policy) {
        assert n.operations[id] == s.operations[id];
      }
      forall id | id in s.changeSets ensures ChangeSetSettled(s.changeSets[id]) {
        assert n.changeSets[id] == s.changeSets[id];
      }
    }
  }
}
