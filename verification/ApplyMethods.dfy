/** Applying a change set: reserve the device, claim the change set, stage, and record both outcomes. */
module ApplyMethods {
  import opened Lifecycle
  import opened Text
  import opened Records
  import opened WriteGate
  import opened ChangeSetStore
  import opened CoordinatorClass
  import opened OperationProtocol
  import opened OperationMethods

  /** What the file system does with the apply's three change-set writes. */
  datatype Marks = Marks(claim: WriteResult, link: WriteResult, outcome: WriteResult)

  /** The script in which the change set was claimed and linked, or was not. */
  function WithClaim(script: Script, ok: bool): Script {
    script.(answers := (k: nat) => if k == 1 then script.answers(1).(ok := ok) else script.answers(k))
  }

  lemma SameUpToClaim(cfg: Limits, start: World, script: Script, a: bool, b: bool)
    ensures Drive(cfg, start, WithClaim(script, a), 1) == Drive(cfg, start, WithClaim(script, b), 1)
  {
    hide RunThread;
    assert Drive(cfg, start, WithClaim(script, a), 0) == start == Drive(cfg, start, WithClaim(script, b), 0);
  }

  // ---- the two records at the end --------------------------------------------------------

  /** The operation thread alone would have finished with these operations in memory; the file has
      what that left there, or, after a change-set write, what memory has. */
  ghost predicate EndedOrWritten(c: Coordinator, start: World, script: Script)
    reads c
  {
    exists k: nat :: EndedAt(c, start, script, k)
  }

  ghost predicate EndedAt(c: Coordinator, start: World, script: Script, k: nat)
    reads c
  {
    var w := Drive(LimitsOf(c.cfg), start, script, k);
    && w.mem == Some(c.operations) && w.threads == map[]
    && (c.file.operations == w.disk || c.file.operations == c.operations)
  }

  lemma EndedCounts(c: Coordinator, start: World, script: Script)
    requires Ended(c, start, script)
    ensures EndedOrWritten(c, start, script)
  {
    hide Drive;
    var k: nat :| EndsAt(c, start, script, k);
    assert EndedAt(c, start, script, k);
  }

  function OutcomeOf(applied: bool): ChangeSetState { if applied then Applied else ChangeSetState.Failed }

  /** The change set is in flight and well formed, exactly as given. */
  ghost predicate InFlight(c: Coordinator, changeSet: ChangeSet)
    reads c`changeSets
  {
    && changeSet.id in c.changeSets && c.changeSets[changeSet.id] == changeSet
    && changeSet.state.Applying? && !changeSet.applyWithoutHandle && RecordOk(c.cfg, changeSet)
  }

  /** The change set stands at its outcome if that was durably written, and is in flight if not. */
  ghost predicate Stands(c: Coordinator, changeSet: ChangeSet, applied: bool, io: WriteResult)
    reads c`changeSets
  {
    && changeSet.id in c.changeSets
    && c.changeSets[changeSet.id] == if io.Durable? then changeSet.(state := OutcomeOf(applied)) else changeSet
  }

  twostate predicate OthersKept(c: Coordinator, id: string)
    reads c`changeSets
  {
    c.changeSets - {id} == old(c.changeSets) - {id}
  }

  /** The gate takes either outcome of a well-formed change set in flight. */
  lemma OutcomeIsAccepted(cfg: Config, m: Sets, disk: Sets, r: ChangeSet, applied: bool, io: WriteResult)
    requires r.id in m && m[r.id] == r && r.state.Applying? && !r.applyWithoutHandle && RecordOk(cfg, r)
    ensures var o := Update(cfg, m, disk, r.(state := OutcomeOf(applied)), io);
            && r.id in o.mem && o.mem - {r.id} == m - {r.id}
            && o.mem[r.id] == if io.Durable? then r.(state := OutcomeOf(applied)) else r
  {
  }

  /** So does it take a change of the plan's operation. */
  lemma LinkIsAccepted(cfg: Config, m: Sets, disk: Sets, r: ChangeSet, plan: Plan, io: WriteResult)
    requires r.id in m && m[r.id] == r && r.state.Applying? && RecordOk(cfg, r)
    ensures var o := Update(cfg, m, disk, r.(plan := plan), io);
            && (o.reply.Done? <==> io.Durable?) && RecordOk(cfg, r.(plan := plan))
            && o.mem == if io.Durable? then m[r.id := r.(plan := plan)] else m
  {
  }

  /** Writes the change set's outcome, best effort. */
  method Mark(c: Coordinator, changeSet: ChangeSet, applied: bool, io: WriteResult)
    requires InFlight(c, changeSet)
    modifies c`changeSets, c`file
    ensures Stands(c, changeSet, applied, io) && OthersKept(c, changeSet.id)
    ensures c.file.operations == old(c.file.operations) || c.file.operations == c.operations
  {
    OutcomeIsAccepted(c.cfg, c.changeSets, c.file.changeSets, changeSet, applied, io);
    hide Update;
    var _ := c.UpdateChangeSet(changeSet.(state := OutcomeOf(applied)), io);
  }

  /** The operation is over; the change set's outcome is written. */
  method Conclude(c: Coordinator, ghost start: World, script: Script, changeSet: ChangeSet, applied: bool,
                  io: WriteResult)
    requires Ended(c, start, script) && InFlight(c, changeSet)
    modifies c`changeSets, c`file
    ensures EndedOrWritten(c, start, script) && Stands(c, changeSet, applied, io) && OthersKept(c, changeSet.id)
  {
    hide Drive, Stands, InFlight;
    ghost var k: nat :| EndsAt(c, start, script, k);
    Mark(c, changeSet, applied, io);
    assert EndedAt(c, start, script, k);
  }

  // ---- staging -----------------------------------------------------------------------------

  /** What an apply's stage call, issued at step `k`, leaves. The handle reaches the caller whether or
      not the two records could be written. A refused stage leaves no operation. Without a fingerprint
      the operation is unresolved, and the change set fails once that is on record. */
  ghost predicate StageLeft(c: Coordinator, script: Script, k: nat, r: Operation, changeSet: ChangeSet,
                            io: WriteResult, handle: bool)
    reads c
  {
    var a := script.answers(k + 1);
    var first := script.writes(k + 2).Durable?;
    && (handle <==> a.staged && a.fingerprint.Some?)
    && (r.id in c.operations <==> a.staged)
    && (a.staged ==>
          c.operations[r.id] ==
            if a.fingerprint.None? then (if first then Unresolved(r, r.current, a.text) else r)
            else if first
            then r.(state := Staged, current := a.fingerprint.value, lockHeld := true, details := Some(a.text))
            else if script.writes(k + 3).Durable? then Unresolved(r, a.fingerprint.value, a.text)
            else r)
    && if a.staged && !handle && !first then InFlight(c, changeSet) else Stands(c, changeSet, handle, io)
  }

  /** The stage call failed: the change set fails first, then the reservation goes. */
  method FailStage(c: Coordinator, ghost start: World, script: Script, k: nat, r: Operation, ghost f: Flow,
                   changeSet: ChangeSet, io: WriteResult)
    requires Reached(c, start, script, k, r, Drop(f)) && c.file.operations == c.operations
    requires InFlight(c, changeSet)
    modifies c`operations, c`changeSets, c`file
    ensures EndedOrWritten(c, start, script) && Stands(c, changeSet, false, io) && OthersKept(c, changeSet.id)
    ensures r.id !in c.operations
  {
    hide Drive, Ended, EndedOrWritten, Stands, InFlight;
    Mark(c, changeSet, false, io);
    DropRecord(c, start, script, k, r, f);
    EndedCounts(c, start, script);
  }

  /** The staging call and what follows it. */
  method StageForApply(c: Coordinator, ghost start: World, script: Script, k: nat, r: Operation, f: Flow, locked: bool,
                       changeSet: ChangeSet, io: WriteResult)
    returns (handle: bool)
    requires f.apply && Reached(c, start, script, k, r, IssueStage(f, locked)) && c.file.operations == c.operations
    requires InFlight(c, changeSet) && r.id in c.operations && c.operations[r.id] == r
    modifies c`operations, c`changeSets, c`file
    ensures EndedOrWritten(c, start, script) && OthersKept(c, changeSet.id)
    ensures StageLeft(c, script, k, r, changeSet, io, handle)
  {
    hide Reached, Ended, EndedOrWritten, InFlight, Stands;
    Heard(c, start, script, k, r, IssueStage(f, locked));
    Heard(c, start, script, k + 1, r, InStage(f, locked));
    var a := script.answers(k + 1);
    if !a.staged {
      FailStage(c, start, script, k + 2, r, f, changeSet, io);
      return false;
    }
    if a.fingerprint.None? {
      var kept := KeepUnresolved(c, start, script, k + 2, r, r.current, a.text);
      if kept {
        Conclude(c, start, script, changeSet, false, io);
      } else {
        EndedCounts(c, start, script);
      }
      return false;
    }
    var fp := a.fingerprint.value;
    var next := r.(current := fp, state := Staged, lockHeld := true, details := Some(a.text));
    var saved := Save(c, start, script, k + 2, r, AfterStage(f, locked, r, a), next);
    if saved {
      IsEnded(c, start, script, k + 3, next);
    } else {
      var _ := KeepUnresolved(c, start, script, k + 3, r, fp, a.text);
    }
    Conclude(c, start, script, changeSet, true, io);
    handle := true;
  }

  /** Nothing was staged: no operation is left, and the change set has failed. */
  ghost predicate GivenUp(c: Coordinator, r: Operation, changeSet: ChangeSet, io: WriteResult)
    reads c
  {
    r.id !in c.operations && Stands(c, changeSet, false, io)
  }

  /** Checks the fingerprint and stages, or backs out. */
  method CheckForApply(c: Coordinator, ghost start: World, script: Script, k: nat, r: Operation, f: Flow, locked: bool,
                       changeSet: ChangeSet, io: WriteResult)
    returns (handle: bool)
    requires f.apply && Reached(c, start, script, k, r, Check(f, locked)) && c.file.operations == c.operations
    requires InFlight(c, changeSet) && r.id in c.operations && c.operations[r.id] == r
    modifies c`operations, c`changeSets, c`file
    ensures EndedOrWritten(c, start, script) && OthersKept(c, changeSet.id)
    ensures if script.answers(k).ok then StageLeft(c, script, k + 1, r, changeSet, io, handle)
            else !handle && GivenUp(c, r, changeSet, io)
  {
    hide Reached, Ended, EndedOrWritten, InFlight, Stands, StageLeft;
    Heard(c, start, script, k, r, Check(f, locked));
    if !script.answers(k).ok {
      BackOut(c, start, script, k + 1, r, f, locked);
      Conclude(c, start, script, changeSet, false, io);
      return false;
    }
    handle := StageForApply(c, start, script, k + 1, r, f, locked, changeSet, io);
  }

  /** What an apply that holds the change set leaves. It stages only with the lock risk on record, the
      lock taken if the device has one, and the fingerprint checked after that. */
  ghost predicate ApplyLeft(c: Coordinator, script: Script, r: Operation, lock: bool, changeSet: ChangeSet,
                            io: WriteResult, handle: bool)
    reads c
  {
    var check := if lock then 5 else 3;
    if script.writes(2).Durable? && (lock ==> script.answers(4).ok) && script.answers(check).ok
    then StageLeft(c, script, check + 1, r.(lockHeld := true), changeSet, io, handle)
    else !handle && GivenUp(c, r, changeSet, io)
  }

  /** The change set is claimed: records the lock risk, takes the lock if the device has one, and
      goes on. */
  method ApplyClaimed(c: Coordinator, ghost start: World, script: Script, r: Operation, f: Flow,
                      changeSet: ChangeSet, io: WriteResult)
    returns (handle: bool)
    requires f.apply && script.answers(1).ok && Reached(c, start, script, 1, r, Pc.Claim(f))
    requires InFlight(c, changeSet)
    modifies c`operations, c`changeSets, c`file
    ensures EndedOrWritten(c, start, script) && OthersKept(c, changeSet.id)
    ensures ApplyLeft(c, script, r, f.lock, changeSet, io, handle)
  {
    hide Reached, Ended, EndedOrWritten, InFlight, Stands, StageLeft;
    Heard(c, start, script, 1, r, Pc.Claim(f));
    var next := r.(lockHeld := true);
    ghost var pc := MarkLock(r, if f.lock then TakeLock(f) else Check(f, false), Drop(f));
    var saved := Save(c, start, script, 2, r, pc, next);
    if !saved {
      DropRecord(c, start, script, 3, r, f);
      Conclude(c, start, script, changeSet, false, io);
      return false;
    }
    if !f.lock {
      handle := CheckForApply(c, start, script, 3, next, f, false, changeSet, io);
      return;
    }
    Heard(c, start, script, 3, next, TakeLock(f));
    Heard(c, start, script, 4, next, Locking(f));
    if !script.answers(4).ok {
      DropRecord(c, start, script, 5, next, f);
      Conclude(c, start, script, changeSet, false, io);
      return false;
    }
    handle := CheckForApply(c, start, script, 5, next, f, true, changeSet, io);
  }

  // ---- the whole apply -----------------------------------------------------------------------

  /** The change set may be claimed for this device. */
  predicate Claimable(m: Sets, id: string, device: string) {
    ValidId(id) && id in m && m[id].device == device && m[id].state.Approved?
  }

  /** In flight, and expected to produce a vendor task. */
  function Started(r: ChangeSet): ChangeSet { r.(state := Applying, applyWithoutHandle := false) }

  /** A claim takes exactly a change set that may be claimed; one whose write failed stays in memory. */
  lemma ClaimTakes(cfg: Config, m: Sets, disk: Sets, id: string, device: string, io: WriteResult)
    ensures var o := ChangeSetStore.Claim(cfg, m, disk, id, device, Expected, io);
            && (o.reply.Done? <==> Claimable(m, id, device) && io.Durable?)
            && o.mem == if Claimable(m, id, device) then m[id := Started(m[id])] else m
  {
  }

  lemma StartedIsOk(cfg: Config, r: ChangeSet)
    requires RecordOk(cfg, r)
    ensures RecordOk(cfg, Started(r))
  {
  }

  /** As every reachable store is. */
  ghost predicate Sound(cfg: Config, m: Sets) {
    forall id :: id in m ==> m[id].id == id && RecordOk(cfg, m[id])
  }

  /** The change set as the apply goes on with it. */
  function Linked(r: ChangeSet, operation: string): ChangeSet {
    Started(r).(plan := r.plan.(operationId := Some(operation)))
  }

  /** Claims the change set and records the operation it is applied by. */
  method ClaimAndLink(c: Coordinator, id: string, device: string, operation: string, marks: Marks)
    returns (linked: Option<ChangeSet>)
    requires Sound(c.cfg, c.changeSets)
    modifies c`changeSets, c`file
    ensures linked.Some? <==>
              Claimable(old(c.changeSets), id, device) && marks.claim.Durable? && marks.link.Durable?
    ensures linked.Some? ==>
              && linked.value == Linked(old(c.changeSets)[id], operation)
              && linked.value.id == id && InFlight(c, linked.value) && OthersKept(c, id)
    ensures linked.None? ==>
              c.changeSets == if Claimable(old(c.changeSets), id, device)
                              then old(c.changeSets)[id := Started(old(c.changeSets)[id])] else old(c.changeSets)
    ensures c.file.operations == old(c.file.operations) || c.file.operations == c.operations
  {
    ClaimTakes(c.cfg, c.changeSets, c.file.changeSets, id, device, marks.claim);
    hide ChangeSetStore.Claim, Update, RecordOk, ValidId;
    var reply := c.ClaimChangeSetForApply(id, device, Expected, marks.claim);
    if reply.Refused? {
      return None;
    }
    StartedIsOk(c.cfg, old(c.changeSets)[id]);
    var claimed := c.changeSets[id];
    var next := claimed.(plan := claimed.plan.(operationId := Some(operation)));
    LinkIsAccepted(c.cfg, c.changeSets, c.file.changeSets, claimed, next.plan, marks.link);
    reply := c.UpdateChangeSet(next, marks.link);
    linked := if reply.Done? then Some(next) else None;
  }

  /** From the reservation on. The apply goes on exactly with a change set that was approved for this
      device, was claimed by this apply and names its operation, both durably. */
  method ApplyChangeSet(c: Coordinator, record: Operation, lock: bool, id: string, script: Script, marks: Marks)
    returns (linked: Option<ChangeSet>, handle: bool)
    requires Sound(c.cfg, c.changeSets)
    modifies c`operations, c`changeSets, c`file
    ensures EndedOrWritten(
              c, Alone(old(c.operations), old(c.file.operations), Working(record, Reserve(Flow(true, lock)))),
              WithClaim(script, linked.Some?))
    ensures var reserved := CanReserve(c.cfg.maxOperations, old(c.operations), record) && script.writes(0).Durable?;
            var claims := reserved && Claimable(old(c.changeSets), id, record.device);
            && (linked.Some? <==> claims && marks.claim.Durable? && marks.link.Durable?)
            && (linked.Some? ==>
                  && linked.value == Linked(old(c.changeSets)[id], record.id) && OthersKept(c, id)
                  && ApplyLeft(c, WithClaim(script, true), record, lock, linked.value, marks.outcome, handle))
            && (linked.None? ==>
                  && !handle && (reserved ==> record.id !in c.operations)
                  && c.changeSets == if claims then old(c.changeSets)[id := Started(old(c.changeSets)[id])]
                                     else old(c.changeSets))
  {
    hide Drive, RunThread, Ended, EndedOrWritten, InFlight, Stands, StageLeft, ApplyLeft, RecordOk, CanReserve;
    var f := Flow(true, lock);
    var no, yes := WithClaim(script, false), WithClaim(script, true);
    ghost var start := Alone(c.operations, c.file.operations, Working(record, Reserve(f)));
    var ok := ReserveDevice(c, start, no, record, f);
    if !ok {
      EndedCounts(c, start, no);
      return None, false;
    }
    linked := ClaimAndLink(c, id, record.device, record.id, marks);
    if linked.Some? {
      SameUpToClaim(LimitsOf(c.cfg), start, script, false, true);
      assert Reached(c, start, yes, 1, record, Pc.Claim(f));
      handle := ApplyClaimed(c, start, yes, record, f, linked.value, marks.outcome);
    } else {
      assert Reached(c, start, no, 1, record, Pc.Claim(f));
      Heard(c, start, no, 1, record, Pc.Claim(f));
      DropRecord(c, start, no, 2, record, f);
      EndedCounts(c, start, no);
      handle := false;
    }
  }
}
