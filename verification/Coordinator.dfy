/** The coordinator itself: two maps and the state file, updated in place. Each method is one
    lock-held section and is proved to compute the corresponding step of the store modules. */
module CoordinatorClass {
  import opened Lifecycle
  import opened Text
  import opened Records
  import opened WriteGate
  import opened ChangeSetStore
  import opened OperationStore
  import opened Recovery

  class Coordinator {
    const cfg: Config
    var operations: Ops
    var changeSets: Sets
    /** What the state file holds. */
    var file: Store

    constructor (cfg: Config)
      ensures this.cfg == cfg
      ensures operations == map[] && changeSets == map[] && file == Store(map[], map[])
    {
      this.cfg := cfg;
      operations, changeSets := map[], map[];
      file := Store(map[], map[]);
    }

    /** Writes both maps to the file; `io` is what the file system does. */
    method Persist(io: WriteResult) returns (ok: bool)
      modifies this`file
      ensures ok == io.Durable?
      ensures file == if io.FailedOld? then old(file) else Store(operations, changeSets)
    {
      if !io.FailedOld? {
        file := Store(operations, changeSets);
      }
      ok := io.Durable?;
    }

    /** The file's other half is its old content or memory's, never anything else. */
    twostate predicate OperationsUntouched()
      reads this
    {
      operations == old(operations)
      && (file.operations == old(file.operations) || file.operations == operations)
    }

    twostate predicate ChangeSetsUntouched()
      reads this
    {
      changeSets == old(changeSets)
      && (file.changeSets == old(file.changeSets) || file.changeSets == changeSets)
    }

    // ---- restart ----------------------------------------------------------

    /** Recovers the operations just read; says whether any record changed. */
    static method RecoverOperations(read: Ops, policy: StagedRecovery) returns (ops: Ops, recovered: bool)
      ensures ops == RecoverOps(read, policy)
      ensures recovered <==> ops != read
    {
      hide RecoverOp, InterruptedState;
      ops, recovered := map[], false;
      var todo := read.Keys;
      while todo != {}
        invariant todo <= read.Keys && ops.Keys == read.Keys - todo
        invariant forall id :: id in ops ==> ops[id] == RecoverOp(read[id], policy)
        invariant recovered <==> exists id :: id in ops && ops[id] != read[id]
        decreases todo
      {
        var id :| id in todo;
        var record, changed := RecoverOperation(read[id], policy);
        ops, todo := ops[id := record], todo - {id};
        recovered := recovered || changed;
        assert changed ==> ops[id] != read[id];
      }
    }

    static method RecoverOperation(read: Operation, policy: StagedRecovery)
      returns (record: Operation, changed: bool)
      ensures record == RecoverOp(read, policy)
      ensures changed <==> record != read
    {
      record, changed := read, false;
      if policy.Retain? && record.state.Staged? && record.jobId.None? {
        return;
      }
      if record.state.Staging? || record.state.Staged? || record.state.Validating? || record.state.Committing? {
        record := record.(state := Indeterminate);
        record := record.(details := Some(RESTARTED));
        changed := true;
      }
    }

    static method RecoverChangeSets(read: Sets) returns (sets: Sets, recovered: bool)
      ensures sets == RecoverSets(read)
      ensures recovered <==> sets != read
    {
      hide RecoverSet;
      sets, recovered := map[], false;
      var todo := read.Keys;
      while todo != {}
        invariant todo <= read.Keys && sets.Keys == read.Keys - todo
        invariant forall id :: id in sets ==> sets[id] == RecoverSet(read[id])
        invariant recovered <==> exists id :: id in sets && sets[id] != read[id]
        decreases todo
      {
        var id :| id in todo;
        var record, changed := RecoverChangeSet(read[id]);
        sets, todo := sets[id := record], todo - {id};
        recovered := recovered || changed;
        assert changed ==> sets[id] != read[id];
      }
    }

    static method RecoverChangeSet(read: ChangeSet) returns (record: ChangeSet, changed: bool)
      ensures record == RecoverSet(read)
      ensures changed <==> record != read
    {
      record, changed := read, false;
      if record.taskId == Some("") {
        record := record.(taskId := None);
        changed := true;
      }
      if record.state.Applying? && record.taskId.None? && !record.applyWithoutHandle {
        record := record.(state := ChangeSetState.Failed);
        changed := true;
      }
    }

    /** Takes the file's contents into memory, settling whatever a restart interrupted. The file is
        rewritten exactly when something changed, and a failed rewrite loads nothing. */
    method Load(policy: StagedRecovery, io: WriteResult) returns (loaded: bool, rewritten: bool)
      modifies this
      ensures rewritten <==> !Settled(old(file), policy)
      ensures loaded <==> !rewritten || io.Durable?
      ensures file == if rewritten && !io.FailedOld? then RecoverStore(old(file), policy) else old(file)
      ensures loaded ==> Store(operations, changeSets) == file == RecoverStore(old(file), policy)
      ensures !loaded ==> operations == old(operations) && changeSets == old(changeSets)
    {
      RecoveryIsExact(file, policy);
      hide Settled;
      ghost var before := file;
      var ops, someOperation := RecoverOperations(file.operations, policy);
      var sets, someChangeSet := RecoverChangeSets(file.changeSets);
      assert Store(ops, sets) == RecoverStore(before, policy);
      hide RecoverOps, RecoverSets;
      assert (someOperation || someChangeSet) <==> Store(ops, sets) != before;
      rewritten := someOperation || someChangeSet;
      loaded := !rewritten || io.Durable?;
      if rewritten && !io.FailedOld? {
        file := Store(ops, sets);
      }
      if loaded {
        operations, changeSets := ops, sets;
      }
    }

    // ---- operations -------------------------------------------------------

    /** Looks for an unfinished operation on the record's device or endpoint. */
    method FindBusy(r: Operation) returns (busy: bool)
      ensures busy == Busy(operations, r)
    {
      var todo := operations.Keys;
      while todo != {}
        invariant todo <= operations.Keys
        invariant forall id :: id in operations && id !in todo && !OperationTerminal(operations[id].state)
                               ==> operations[id].device != r.device && operations[id].endpoint != r.endpoint
        decreases todo
      {
        var id :| id in todo;
        todo := todo - {id};
        if !OperationTerminal(operations[id].state)
           && (operations[id].device == r.device || operations[id].endpoint == r.endpoint) {
          return true;
        }
      }
      return false;
    }

    /** At capacity, finished operations make room. */
    method DropTerminal()
      modifies this`operations
      ensures operations == EvictOps(old(operations), cfg.maxOperations)
    {
      if |operations| >= cfg.maxOperations {
        operations := map id | id in operations && !OperationTerminal(operations[id].state) :: operations[id];
      }
    }

    method InsertOperation(r: Operation, io: WriteResult) returns (reply: Reply)
      modifies this`operations, this`file
      ensures var o := InsertOp(cfg.maxOperations, old(operations), old(file.operations), r, io);
              operations == o.mem && file.operations == o.disk && reply == o.reply
      ensures ChangeSetsUntouched()
    {
      hide Busy, EvictOps;
      DropTerminal();
      ghost var kept := operations;
      if |operations| >= cfg.maxOperations {
        return Refused(StoreFull);
      }
      var busy := FindBusy(r);
      if busy {
        return Refused(DeviceBusy);
      }
      operations := operations[r.id := r];
      var ok := Persist(io);
      if !ok {
        operations := operations - {r.id};
        assert operations == kept - {r.id};
        return Refused(PersistFailed);
      }
      return Done;
    }

    method UpdateOperation(r: Operation, io: WriteResult) returns (reply: Reply)
      modifies this`operations, this`file
      ensures var o := UpdateOp(old(operations), old(file.operations), r, io);
              operations == o.mem && file.operations == o.disk && reply == o.reply
      ensures ChangeSetsUntouched()
    {
      var previous := if r.id in operations then Some(operations[r.id]) else None;
      operations := operations[r.id := r];
      var ok := Persist(io);
      if !ok {
        match previous {
          case Some(p) => operations := operations[r.id := p];
          case None => operations := operations - {r.id};
        }
        assert operations == old(operations);
        return Refused(PersistFailed);
      }
      return Done;
    }

    method RemoveOperation(id: string, io: WriteResult)
      modifies this`operations, this`file
      ensures var o := RemoveOp(old(operations), old(file.operations), id, io);
              operations == o.mem && file.operations == o.disk
      ensures ChangeSetsUntouched()
    {
      operations := operations - {id};
      var _ := Persist(io);
    }

    // ---- change sets ------------------------------------------------------

    /** Retires every change set past a deadline; returns what each retirement replaced. */
    method RetireDue(now: nat) returns (retired: map<string, ChangeSetState>)
      modifies this`changeSets
      ensures changeSets == Sweep(old(changeSets), now)
      ensures retired == Retired(old(changeSets), now)
    {
      hide WaiverLapsed;
      retired := map[];
      ghost var before := changeSets;
      ghost var after := Sweep(before, now);
      ghost var expected := Retired(before, now);
      var todo := changeSets.Keys;
      while todo != {}
        invariant todo <= before.Keys && changeSets.Keys == before.Keys == after.Keys
        invariant forall id :: id in before ==> changeSets[id] == if id in todo then before[id] else after[id]
        invariant forall id :: id in retired <==> id in expected && id !in todo
        invariant forall id :: id in retired ==> retired[id] == expected[id]
        decreases todo
      {
        var id :| id in todo;
        todo := todo - {id};
        if Due(changeSets[id], now) {
          retired := retired[id := changeSets[id].state];
          changeSets := changeSets[id := changeSets[id].(state := Expired)];
        }
      }
      assert changeSets == after;
      assert retired == expected;
    }

    /** At capacity, drops the finished change sets; returns what was dropped. */
    method DropFinished() returns (evicted: Sets)
      modifies this`changeSets
      ensures changeSets == Evict(old(changeSets), cfg.maxChangeSets)
      ensures evicted == Dropped(old(changeSets), cfg.maxChangeSets)
    {
      evicted := map[];
      if |changeSets| < cfg.maxChangeSets {
        return;
      }
      ghost var before := changeSets;
      var todo := changeSets.Keys;
      while todo != {}
        invariant todo <= before.Keys
        invariant forall id :: id in changeSets <==> id in before && (id in todo || !Evictable(before[id].state))
        invariant forall id :: id in changeSets ==> changeSets[id] == before[id]
        invariant forall id :: id in evicted <==> id in before && id !in todo && Evictable(before[id].state)
        invariant forall id :: id in evicted ==> evicted[id] == before[id]
        decreases todo
      {
        var id :| id in todo;
        todo := todo - {id};
        if Evictable(changeSets[id].state) {
          evicted := evicted[id := changeSets[id]];
          changeSets := changeSets - {id};
        }
      }
      assert changeSets == Evict(before, cfg.maxChangeSets);
      assert evicted == Dropped(before, cfg.maxChangeSets);
    }

    /** Puts back what a sweep took, after its persist failed: the state of each retired record
        that is still present, then the evicted records as they were when evicted. */
    method UndoSweepInMemory(retired: map<string, ChangeSetState>, evicted: Sets, ghost before: Sets, now: nat)
      requires retired == Retired(before, now)
      requires changeSets == Evict(Sweep(before, now), cfg.maxChangeSets)
      requires evicted == Dropped(Sweep(before, now), cfg.maxChangeSets)
      modifies this`changeSets
      ensures changeSets == UndoSweep(before, now, cfg.maxChangeSets)
    {
      ghost var swept := changeSets;
      var todo := retired.Keys;
      while todo != {}
        invariant todo <= retired.Keys && changeSets.Keys == swept.Keys
        invariant forall id :: id in swept ==>
                    changeSets[id]
                    == if id in retired && id !in todo then swept[id].(state := retired[id]) else swept[id]
        decreases todo
      {
        var id :| id in todo;
        todo := todo - {id};
        if id in changeSets {
          changeSets := changeSets[id := changeSets[id].(state := retired[id])];
        }
      }
      changeSets := changeSets + evicted;
      UndoIsExactlyThis(before, now, cfg.maxChangeSets, retired, changeSets);
    }

    method InsertChangeSet(record: ChangeSet, now: nat, sweepIo: WriteResult, io: WriteResult) returns (reply: Reply)
      modifies this`changeSets, this`file
      ensures var o := Insert(cfg, old(changeSets), old(file.changeSets), record, now, sweepIo, io);
              changeSets == o.mem && file.changeSets == o.disk && reply == o.reply
      ensures OperationsUntouched()
    {
      hide Sweep, Evict, UndoSweep, Screen, Blocked, Normalise;
      var screened := Screen(cfg, record);
      if screened.Refused? {
        return screened;
      }
      var r := Normalise(record);
      if r.id in changeSets {
        return Refused(AlreadyExists);
      }
      ghost var before := changeSets;
      var retired := RetireDue(now);
      var evicted := DropFinished();
      SweptIffChanged(before, now, cfg.maxChangeSets);
      if retired != map[] || evicted != map[] {
        var ok := Persist(sweepIo);
        if !ok {
          UndoSweepInMemory(retired, evicted, before, now);
          return Refused(PersistFailed);
        }
      }
      reply := AdmitRecord(r, io);
    }

    method AdmitRecord(r: ChangeSet, io: WriteResult) returns (reply: Reply)
      requires r.id !in changeSets
      modifies this`changeSets, this`file
      ensures var o := Admit(cfg, old(changeSets), old(file.changeSets), r, io);
              changeSets == o.mem && file.changeSets == o.disk && reply == o.reply
      ensures OperationsUntouched()
    {
      hide Blocked;
      if |changeSets| >= cfg.maxChangeSets {
        return Refused(StoreFull);
      }
      if Blocked(changeSets, r) {
        return Refused(PendingExists);
      }
      changeSets := changeSets[r.id := r];
      var ok := Persist(io);
      if !ok {
        changeSets := changeSets - {r.id};
        assert changeSets == old(changeSets);
        return Refused(PersistFailed);
      }
      return Done;
    }

    method ClaimChangeSetForApply(id: string, device: string, handle: ApplyHandle, io: WriteResult)
      returns (reply: Reply)
      modifies this`changeSets, this`file
      ensures var o := Claim(cfg, old(changeSets), old(file.changeSets), id, device, handle, io);
              changeSets == o.mem && file.changeSets == o.disk && reply == o.reply
      ensures reply.Done? ==>
                && id in old(changeSets) && old(changeSets)[id].state.Approved?
                && changeSets == old(changeSets)[id := old(changeSets)[id].(
                     state := Applying, applyWithoutHandle := handle.NoHandle?)]
      ensures OperationsUntouched()
    {
      if !ValidId(id) {
        return Refused(BadId);
      }
      if id !in changeSets {
        return Refused(Unknown);
      }
      var previous := changeSets[id];
      if previous.device != device {
        return Refused(WrongDevice);
      }
      if !previous.state.Approved? {
        return Refused(NotApproved);
      }
      var claimed := previous.(state := Applying, applyWithoutHandle := handle.NoHandle?);
      var gate := CheckWrite(cfg, Some(previous), claimed, ByClaim);
      if gate.Refused? {
        return gate;
      }
      changeSets := changeSets[id := claimed];
      var ok := Persist(io);
      // No rollback: a claim that may have reached the disk is kept.
      return if ok then Done else Refused(PersistFailed);
    }

    method UpdateChangeSet(record: ChangeSet, io: WriteResult) returns (reply: Reply)
      modifies this`changeSets, this`file
      ensures var o := Update(cfg, old(changeSets), old(file.changeSets), record, io);
              changeSets == o.mem && file.changeSets == o.disk && reply == o.reply
      ensures OperationsUntouched()
    {
      hide Normalise;
      var r := Normalise(record);
      var gate := CheckWrite(cfg, Lookup(changeSets, r.id), r, ByUpdate);
      if gate.Refused? {
        return gate;
      }
      var previous := changeSets[r.id];
      changeSets := changeSets[r.id := r];
      var ok := Persist(io);
      if !ok {
        changeSets := changeSets[r.id := previous];
        assert changeSets == old(changeSets);
        return Refused(PersistFailed);
      }
      return Done;
    }

    method UpdateChangeSetFrom(observed: ChangeSetState, record: ChangeSet, io: WriteResult) returns (reply: Reply)
      modifies this`changeSets, this`file
      ensures var o := UpdateFrom(cfg, old(changeSets), old(file.changeSets), observed, record, io);
              changeSets == o.mem && file.changeSets == o.disk && reply == o.reply
      ensures OperationsUntouched()
    {
      if record.id !in changeSets {
        return Refused(Unknown);
      }
      if changeSets[record.id].state != observed {
        return Refused(Moved);
      }
      reply := UpdateChangeSet(record, io);
    }
  }

  function Retired(m: Sets, now: nat): map<string, ChangeSetState> {
    map id | id in m && Due(m[id], now) :: m[id].state
  }

  function Dropped(m: Sets, max: nat): Sets {
    if |m| < max then map[] else map id | id in m && Evictable(m[id].state) :: m[id]
  }

  lemma SweepSize(m: Sets, now: nat)
    ensures |Sweep(m, now)| == |m|
  {
    assert Sweep(m, now).Keys == m.Keys;
  }

  /** The sweep has something to persist exactly when it changed the map; it adds no record. */
  lemma SweptIffChanged(m: Sets, now: nat, max: nat)
    ensures var s := Sweep(m, now);
            && (Evict(s, max) != m <==> Retired(m, now) != map[] || Dropped(s, max) != map[])
            && Evict(s, max).Keys <= m.Keys
  {
    hide WaiverLapsed;
    var s := Sweep(m, now);
    SweepSize(m, now);
    if id :| id in Retired(m, now) {
      assert id in m && (id in Evict(s, max) ==> Evict(s, max)[id] != m[id]);
    } else if id :| id in Dropped(s, max) {
      assert id in m && id !in Evict(s, max);
    } else {
      forall id | id in m ensures s[id] == m[id] {
        assert id !in Retired(m, now);
      }
      assert s == m;
      forall id | id in m ensures id in Evict(s, max) {
        assert id !in Dropped(s, max);
      }
      assert Evict(s, max) == m;
    }
  }

  lemma UndoIsExactlyThis(m: Sets, now: nat, max: nat, retired: map<string, ChangeSetState>, restored: Sets)
    requires retired == Retired(m, now)
    requires var swept := Evict(Sweep(m, now), max);
             && restored.Keys == swept.Keys + Dropped(Sweep(m, now), max).Keys
             && (forall id :: id in Dropped(Sweep(m, now), max) ==> restored[id] == Sweep(m, now)[id])
             && (forall id :: id in swept && id !in Dropped(Sweep(m, now), max) ==>
                   restored[id] == if id in retired then swept[id].(state := retired[id]) else swept[id])
    ensures restored == UndoSweep(m, now, max)
  {
    hide Sweep, Evict, Dropped, Retired, UndoSweep;
    forall id ensures id in restored <==> id in UndoSweep(m, now, max) {
      UndoAt(m, now, max, id);
    }
    forall id | id in restored ensures restored[id] == UndoSweep(m, now, max)[id] {
      UndoAt(m, now, max, id);
    }
  }

  /** What undoing a sweep does to one record. */
  lemma UndoAt(m: Sets, now: nat, max: nat, id: string)
    ensures var s := Sweep(m, now);
            var swept, dropped, retired := Evict(s, max), Dropped(s, max), Retired(m, now);
            && (id in m <==> id in UndoSweep(m, now, max)) && (id in m <==> id in swept || id in dropped)
            && (id in dropped ==> id in s && UndoSweep(m, now, max)[id] == s[id])
            && (id in swept && id !in dropped ==>
                  UndoSweep(m, now, max)[id] == if id in retired then swept[id].(state := retired[id]) else swept[id])
  {
    SweepSize(m, now);
    hide WaiverLapsed;
    if id in m && Due(m[id], now) {
      assert Sweep(m, now)[id].(state := m[id].state) == m[id];
    }
  }
}
