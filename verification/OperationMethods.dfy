/** The lifecycle methods themselves, each run alone on one coordinator. What the device answers and
    what the file system does at step k are given; each method is proved to take the coordinator
    exactly where the protocol's thread goes, to its end. */
module OperationMethods {
  import opened Lifecycle
  import opened Text
  import opened Records
  import opened OperationStore
  import opened CoordinatorClass
  import opened OperationProtocol
  import opened OperationTheorems

  /** What the device and the caller answer, and what the file system does, at each step. */
  datatype Script = Script(answers: nat -> Answer, writes: nat -> WriteResult)

  /** One thread, alone, for `n` steps. */
  function Drive(cfg: Limits, start: World, script: Script, n: nat): World {
    if n == 0 then start
    else
      var w := Drive(cfg, start, script, n - 1);
      if w.mem.Some? && 0 in w.threads then RunThread(cfg, w, 0, script.answers(n - 1), script.writes(n - 1)) else w
  }

  /** A coordinator holding `ops` over a file holding `disk`, with one thread in it. */
  function Alone(ops: Ops, disk: Ops, t: Thread): World {
    World(Some(ops), disk, map[0 := t], {}, map[], {})
  }

  /** Every flow, on devices that promise nothing about failed calls. */
  function LimitsOf(cfg: Config): Limits {
    Limits(cfg.maxOperations, {Flow(false, false), Flow(false, true), Flow(true, false), Flow(true, true)}, false)
  }

  /** The coordinator is where the thread alone would have taken it in `k` steps, and the thread is
      at `pc` with record `r`. */
  ghost predicate Reached(c: Coordinator, start: World, script: Script, k: nat, r: Operation, pc: Pc)
    reads c
  {
    var w := Drive(LimitsOf(c.cfg), start, script, k);
    && w.mem == Some(c.operations) && w.disk == c.file.operations
    && w.threads == if pc.Finished? then map[] else map[0 := Working(r, pc)]
  }

  /** The thread alone would have finished, leaving the coordinator as it is. */
  ghost predicate Ended(c: Coordinator, start: World, script: Script)
    reads c
  {
    exists k: nat :: EndsAt(c, start, script, k)
  }

  ghost predicate EndsAt(c: Coordinator, start: World, script: Script, k: nat)
    reads c
  {
    var w := Drive(LimitsOf(c.cfg), start, script, k);
    w.mem == Some(c.operations) && w.disk == c.file.operations && w.threads == map[]
  }

  /** Operations are kept under their own ids. */
  ghost predicate Keyed(ops: Ops) { forall id :: id in ops ==> ops[id].id == id }

  /** The record is `r`, in memory and in the file. */
  ghost predicate Recorded(c: Coordinator, id: string, r: Operation)
    reads c
  {
    id in c.operations && c.operations[id] == r && id in c.file.operations && c.file.operations[id] == r
  }

  // ---- single steps -----------------------------------------------------------------

  lemma DriveOn(cfg: Limits, start: World, script: Script, k: nat)
    requires var w := Drive(cfg, start, script, k); w.mem.Some? && 0 in w.threads
    ensures Drive(cfg, start, script, k + 1)
         == RunThread(cfg, Drive(cfg, start, script, k), 0, script.answers(k), script.writes(k))
  {
    hide RunThread;
  }

  lemma OnlyThread(t: Thread)
    ensures map[0 := t] - {0} == map[]
  {
  }

  lemma UpdateStep(cfg: Limits, w: World, r: Operation, pc: Pc, a: Answer, io: WriteResult)
    requires w.mem.Some? && w.threads == map[0 := Working(r, pc)] && pc.Writing?
    ensures var o := UpdateOp(w.mem.value, w.disk, pc.next, io);
            var v := RunThread(cfg, w, 0, a, io);
            var at := if io.Durable? then pc.onSaved else pc.onFailed;
            && v.mem == Some(o.mem) && v.disk == o.disk
            && v.threads == if at.Finished? then map[] else map[0 := Working(if io.Durable? then pc.next else r, at)]
  {
    OnlyThread(Working(r, pc));
  }

  /** One update of the record. */
  method Save(c: Coordinator, ghost start: World, script: Script, k: nat, ghost r: Operation, ghost pc: Pc,
              next: Operation)
    returns (saved: bool)
    requires Reached(c, start, script, k, r, pc) && pc.Writing? && pc.next == next
    modifies c`operations, c`file
    ensures saved == script.writes(k).Durable?
    ensures Reached(c, start, script, k + 1, if saved then next else r, if saved then pc.onSaved else pc.onFailed)
    ensures saved ==> Recorded(c, next.id, next) && c.file.operations == c.operations
    ensures c.operations == if saved then old(c.operations)[next.id := next] else old(c.operations)
  {
    hide Drive, RunThread;
    DriveOn(LimitsOf(c.cfg), start, script, k);
    UpdateStep(LimitsOf(c.cfg), Drive(LimitsOf(c.cfg), start, script, k), r, pc, script.answers(k), script.writes(k));
    var reply := c.UpdateOperation(next, script.writes(k));
    saved := reply.Done?;
  }

  /** One device call, or a check of the caller's. */
  lemma Heard(c: Coordinator, start: World, script: Script, k: nat, r: Operation, pc: Pc)
    requires Reached(c, start, script, k, r, pc)
    requires !pc.Finished? && !pc.Writing? && !pc.Reserve? && !pc.Drop?
    ensures Reached(c, start, script, k + 1, r, Advance(pc, r, script.answers(k)))
  {
    hide Drive, Advance, LocksAfter;
    DriveOn(LimitsOf(c.cfg), start, script, k);
    OnlyThread(Working(r, pc));
  }

  lemma IsEnded(c: Coordinator, start: World, script: Script, k: nat, r: Operation)
    requires Reached(c, start, script, k, r, Finished)
    ensures Ended(c, start, script)
  {
    hide Drive;
    assert EndsAt(c, start, script, k);
  }

  /** The caller's own operation on this device. */
  predicate Mine(ops: Ops, id: string, owner: string, device: string) {
    id in ops && ops[id].owner == owner && ops[id].device == device
  }

  /** Of all operations only `id` has changed. */
  twostate predicate OnlyChanged(c: Coordinator, id: string)
    reads c`operations
  {
    c.operations - {id} == old(c.operations) - {id}
  }

  /** The guard is held: the record is read again and checked. */
  method Reread(c: Coordinator, ghost start: World, script: Script, id: string, owner: string, device: string,
                work: Work)
    returns (found: Option<Operation>)
    requires start == Alone(c.operations, c.file.operations, Waiting(id, owner, device, work))
    ensures found.Some? <==> id in c.operations && c.operations[id].owner == owner && c.operations[id].device == device
                             && Admissible(work, c.operations[id].state)
    ensures found.Some? ==> found.value == c.operations[id]
    ensures if found.Some? then Reached(c, start, script, 1, found.value, Inspect(work)) else Ended(c, start, script)
  {
    found := None;
    if id in c.operations {
      var record := c.operations[id];
      if record.owner == owner && record.device == device && Admissible(work, record.state) {
        found := Some(record);
      }
    }
    OnlyThread(Waiting(id, owner, device, work));
    assert Drive(LimitsOf(c.cfg), start, script, 0) == start;
    DriveOn(LimitsOf(c.cfg), start, script, 0);
    hide Drive;
    if found.None? {
      assert EndsAt(c, start, script, 1);
    }
  }

  /** Reads the record and asks whether to go on. */
  method Prepare(c: Coordinator, ghost start: World, script: Script, id: string, owner: string, device: string,
                 work: Work)
    returns (found: Option<Operation>)
    requires start == Alone(c.operations, c.file.operations, Waiting(id, owner, device, work))
    ensures found.Some? <==>
              && Mine(c.operations, id, owner, device) && Admissible(work, c.operations[id].state)
              && script.answers(1).ok
    ensures found.Some? ==> found.value == c.operations[id]
    ensures if found.Some? then script.answers(1).ok
                                && Reached(c, start, script, 2, found.value,
                                           AfterInspect(work, found.value, script.answers(1)))
            else Ended(c, start, script)
  {
    hide Reached, Ended;
    found := Reread(c, start, script, id, owner, device, work);
    if found.Some? {
      Heard(c, start, script, 1, found.value, Inspect(work));
      if !script.answers(1).ok {
        IsEnded(c, start, script, 2, found.value);
        found := None;
      }
    }
  }

  // ---- validate ------------------------------------------------------------------------

  /** A staged operation is marked as being validated, and then as what the device said. Refused, or
      not marked, it is as it was. */
  method ValidateOperation(c: Coordinator, id: string, owner: string, device: string, script: Script) returns (ok: bool)
    requires Keyed(c.operations)
    modifies c`operations, c`file
    ensures Ended(c, Alone(old(c.operations), old(c.file.operations), Waiting(id, owner, device, Validate)), script)
    ensures var before := old(c.operations);
            var goes := && Mine(before, id, owner, device) && before[id].state.Staged?
                        && script.answers(1).ok && script.writes(2).Durable?;
            && (!goes ==> c.operations == before)
            && (goes ==>
                  var r := before[id];
                  var after := if script.answers(3).ok then r.(state := Validated, details := None)
                               else r.(state := OperationState.Failed, details := Some(script.answers(3).text));
                  if script.writes(4).Durable? then Recorded(c, id, after)
                  else id in c.operations && c.operations[id] == r.(state := Validating))
            && (ok <==> goes && script.answers(3).ok && script.writes(4).Durable?)
    ensures OnlyChanged(c, id)
  {
    hide Reached, Ended;
    ghost var start := Alone(c.operations, c.file.operations, Waiting(id, owner, device, Validate));
    var found := Prepare(c, start, script, id, owner, device, Validate);
    if found.None? {
      return false;
    }
    var record := found.value;
    ghost var pc := AfterInspect(Validate, record, script.answers(1));
    var next := record.(state := Validating);
    var saved := Save(c, start, script, 2, record, pc, next);
    if !saved {
      IsEnded(c, start, script, 3, record);
      return false;
    }
    record := next;
    Heard(c, start, script, 3, record, InValidate);
    ok := script.answers(3).ok;
    if ok {
      next := record.(state := Validated, details := None);
    } else {
      next := record.(state := OperationState.Failed, details := Some(script.answers(3).text));
    }
    saved := Save(c, start, script, 4, record, Settle(next), next);
    IsEnded(c, start, script, 5, if saved then next else record);
    ok := ok && saved;
  }

  // ---- commit --------------------------------------------------------------------------

  /** A validated operation is marked as committing, with who asked, before the device is told; then
      the outcome is recorded. Refused, or not marked, it is as it was. */
  method CommitOperation(c: Coordinator, id: string, owner: string, device: string, script: Script)
    returns (committed: bool)
    requires Keyed(c.operations)
    modifies c`operations, c`file
    ensures Ended(c, Alone(old(c.operations), old(c.file.operations), Waiting(id, owner, device, Commit)), script)
    ensures var before := old(c.operations);
            var goes := && Mine(before, id, owner, device) && before[id].state.Validated?
                        && script.answers(1).ok && script.writes(2).Durable?;
            var (who, a) := (script.answers(1).text, script.answers(4));
            && (!goes ==> c.operations == before)
            && (goes ==>
                  && id in c.operations
                  && if script.writes(5).Durable?
                     then Recorded(c, id, c.operations[id]) && CommitLeaves(before[id], c.operations[id], who, a)
                     else c.operations[id] == before[id].(state := Committing, attribution := Some(who)))
            && (committed <==> goes && a.commit.Reconciled? && a.commit.succeeded && script.writes(5).Durable?)
    ensures OnlyChanged(c, id)
  {
    hide Reached, Ended;
    ghost var start := Alone(c.operations, c.file.operations, Waiting(id, owner, device, Commit));
    var found := Prepare(c, start, script, id, owner, device, Commit);
    if found.None? {
      return false;
    }
    var record := found.value;
    ghost var pc := AfterInspect(Commit, record, script.answers(1));
    var next := record.(state := Committing, attribution := Some(script.answers(1).text));
    var saved := Save(c, start, script, 2, record, pc, next);
    if !saved {
      IsEnded(c, start, script, 3, record);
      return false;
    }
    committed := ReportCommit(c, start, script, next);
  }

  /** Tells the device and records what it answers. */
  method ReportCommit(c: Coordinator, ghost start: World, script: Script, record: Operation) returns (committed: bool)
    requires Reached(c, start, script, 3, record, IssueCommit) && record.state.Committing? && record.attribution.Some?
    requires Recorded(c, record.id, record)
    modifies c`operations, c`file
    ensures Ended(c, start, script) && OnlyChanged(c, record.id) && record.id in c.operations
    ensures if script.writes(5).Durable?
            then && Recorded(c, record.id, c.operations[record.id])
                 && CommitLeaves(record, c.operations[record.id], record.attribution.value, script.answers(4))
            else c.operations[record.id] == record
    ensures committed <==> c.operations[record.id].state.Committed?
  {
    hide Reached, Ended;
    var next := record;
    Heard(c, start, script, 3, record, IssueCommit);
    Heard(c, start, script, 4, record, InCommit);
    var text := script.answers(4).text;
    match script.answers(4).commit {
      case Reconciled(succeeded, job, note) =>
        next := record.(state := if succeeded then OperationState.Committed else OperationState.Failed,
                        jobId := job, details := note);
        if succeeded {
          next := next.(lockHeld := false);
        }
      case Detached(job) => next := record.(jobId := job);
      case AwaitingConfirmation(job, deadline, note) =>
        next := record.(jobId := job, details := note);
        next := next.(rollbackDeadline := Some(deadline));
        next := next.(lockHeld := false);
      case Unknown => next := record.(state := Indeterminate, details := Some(text));
      case CommitError => next := record.(state := OperationState.Failed, details := Some(text));
    }
    var saved := Save(c, start, script, 5, record, Settle(next), next);
    IsEnded(c, start, script, 6, if saved then next else record);
    committed := saved && next.state.Committed?;
  }

  // ---- discard -------------------------------------------------------------------------

  /** What the rollback, the unlock and the last fingerprint make of `r`. It is discarded only if all
      three went well and every write is durable, and failed only if the device refused to revert; in
      every other case nobody knows, and it says so. The lock flag is cleared by a confirmed release
      alone. */
  ghost predicate DiscardLeaves(r: Operation, after: Operation, script: Script) {
    var back := script.answers(4).rollback;
    var reverted := back.Reverted? && script.writes(5).Durable?;
    var unlock := script.answers(6).unlock;
    && after == r.(state := after.state, current := after.current, details := after.details,
                   lockHeld := after.lockHeld)
    && (after.state.Discarded? <==>
          reverted && unlock.Released? && script.answers(7).fingerprint.Some? && script.writes(8).Durable?)
    && (after.state.Failed? <==> back.Rejected? && script.writes(5).Durable?)
    && (after.state.Discarded? || after.state.Failed? || after.state.Indeterminate?)
    && after.lockHeld == (if reverted && unlock.Released? && script.writes(8).Durable? then false
                          else if reverted && unlock.UnlockError? && script.writes(7).Durable? then true
                          else r.lockHeld)
    && after.current == (if after.state.Discarded? then script.answers(7).fingerprint.value else r.current)
    && (after.state.Discarded? ==> after.details == Some("candidate reverted"))
    && (!back.Reverted? && script.writes(5).Durable? ==> after.details == Some(script.answers(4).text))
    && (reverted && !unlock.Released? && script.writes(7).Durable? ==> after.details == Some(script.answers(6).text))
    && (reverted && unlock.Released? && script.answers(7).fingerprint.None? && script.writes(8).Durable? ==>
          after.details == Some(script.answers(7).text))
  }

  /** The write that settles a discard. */
  function LastWrite(script: Script): nat {
    if !script.answers(4).rollback.Reverted? || !script.writes(5).Durable? then 5
    else if script.answers(6).unlock.Released? then 8 else 7
  }

  /** Marked as unknown first, the candidate is reverted and the lock released. Only an operation nobody
      is validating or committing, and that is neither finished nor unknown already, is touched. */
  method DiscardOperation(c: Coordinator, id: string, owner: string, device: string, script: Script) returns (ok: bool)
    requires Keyed(c.operations)
    modifies c`operations, c`file
    ensures Ended(c, Alone(old(c.operations), old(c.file.operations), Waiting(id, owner, device, DiscardCandidate)),
                  script)
    ensures var before := old(c.operations);
            var goes := && Mine(before, id, owner, device)
                        && (|| before[id].state.Staging? || before[id].state.Staged?
                            || before[id].state.Validated? || before[id].state.Failed?)
                        && script.answers(1).ok && script.writes(2).Durable?;
            && (!goes ==> c.operations == before && !ok)
            && (goes ==>
                  && id in c.operations && DiscardLeaves(before[id], c.operations[id], script)
                  && (script.writes(LastWrite(script)).Durable? ==> Recorded(c, id, c.operations[id]))
                  && (ok <==> c.operations[id].state.Discarded?))
    ensures OnlyChanged(c, id)
  {
    hide Reached, Ended;
    ghost var start := Alone(c.operations, c.file.operations, Waiting(id, owner, device, DiscardCandidate));
    var found := Prepare(c, start, script, id, owner, device, DiscardCandidate);
    if found.None? {
      return false;
    }
    var record := found.value;
    ghost var pc := AfterInspect(DiscardCandidate, record, script.answers(1));
    var next := record.(state := Indeterminate, details := Some("rollback in progress"));
    var saved := Save(c, start, script, 2, record, pc, next);
    if !saved {
      IsEnded(c, start, script, 3, record);
      return false;
    }
    ok := RevertCandidate(c, start, script, next);
  }

  /** Tells the device to revert and records what it answers. */
  method TryRevert(c: Coordinator, ghost start: World, script: Script, record: Operation)
    returns (next: Operation, saved: bool)
    requires Reached(c, start, script, 3, record, IssueRollback)
    requires record.state.Indeterminate? && Recorded(c, record.id, record)
    modifies c`operations, c`file
    ensures OnlyChanged(c, record.id) && saved == script.writes(5).Durable?
    ensures var back := script.answers(4).rollback;
            && next == record.(state := next.state, details := next.details)
            && next.state == (if back.Rejected? then OperationState.Failed else Indeterminate)
            && (!back.Reverted? ==> next.details == Some(script.answers(4).text))
            && Reached(c, start, script, 6, if saved then next else record,
                       if saved && back.Reverted? then DiscardUnlock else Finished)
    ensures if saved then Recorded(c, record.id, next) else c.operations == old(c.operations)
  {
    hide Reached;
    Heard(c, start, script, 3, record, IssueRollback);
    Heard(c, start, script, 4, record, InRollback);
    ghost var pc := AfterRollback(record, script.answers(4));
    match script.answers(4).rollback {
      case Reverted =>
        next := record.(state := Indeterminate, details := Some("candidate reverted; verifying lock release"));
      case Rejected => next := record.(state := OperationState.Failed, details := Some(script.answers(4).text));
      case Unclear => next := record.(state := Indeterminate, details := Some(script.answers(4).text));
    }
    saved := Save(c, start, script, 5, record, pc, next);
  }

  method RevertCandidate(c: Coordinator, ghost start: World, script: Script, record: Operation) returns (ok: bool)
    requires Reached(c, start, script, 3, record, IssueRollback)
    requires record.state.Indeterminate? && Recorded(c, record.id, record)
    modifies c`operations, c`file
    ensures Ended(c, start, script) && OnlyChanged(c, record.id)
    ensures record.id in c.operations && DiscardLeaves(record, c.operations[record.id], script)
    ensures script.writes(LastWrite(script)).Durable? ==> Recorded(c, record.id, c.operations[record.id])
    ensures ok <==> c.operations[record.id].state.Discarded?
  {
    hide Reached, Ended, DiscardLeaves;
    var next, saved := TryRevert(c, start, script, record);
    if !saved || !script.answers(4).rollback.Reverted? {
      NotReverted(record, next, saved, script);
      IsEnded(c, start, script, 6, if saved then next else record);
      return false;
    }
    ok := FinishDiscard(c, start, script, next);
    NotesAside(record, next, c.operations[record.id], script);
  }

  lemma NotesAside(r: Operation, n: Operation, after: Operation, script: Script)
    requires n == r.(state := n.state, details := n.details) && DiscardLeaves(n, after, script)
    ensures DiscardLeaves(r, after, script)
  {
  }

  lemma NotReverted(r: Operation, n: Operation, saved: bool, script: Script)
    requires r.state.Indeterminate? && (saved <==> script.writes(5).Durable?)
    requires !saved || !script.answers(4).rollback.Reverted?
    requires n == r.(state := n.state, details := n.details)
    requires n.state == if script.answers(4).rollback.Rejected? then OperationState.Failed else Indeterminate
    requires !script.answers(4).rollback.Reverted? ==> n.details == Some(script.answers(4).text)
    ensures DiscardLeaves(r, if saved then n else r, script)
  {
  }

  method FinishDiscard(c: Coordinator, ghost start: World, script: Script, record: Operation) returns (ok: bool)
    requires Reached(c, start, script, 6, record, DiscardUnlock)
    requires record.state.Indeterminate? && Recorded(c, record.id, record)
    requires script.answers(4).rollback.Reverted? && script.writes(5).Durable?
    modifies c`operations, c`file
    ensures Ended(c, start, script) && OnlyChanged(c, record.id)
    ensures record.id in c.operations && DiscardLeaves(record, c.operations[record.id], script)
    ensures script.writes(LastWrite(script)).Durable? ==> Recorded(c, record.id, c.operations[record.id])
    ensures ok <==> c.operations[record.id].state.Discarded?
  {
    hide Reached, Ended;
    Heard(c, start, script, 6, record, DiscardUnlock);
    var next := record;
    match script.answers(6).unlock {
      case Unsupported =>
        next := next.(state := Indeterminate, details := Some(script.answers(6).text));
      case UnlockError =>
        next := next.(state := Indeterminate, details := Some(script.answers(6).text));
        next := next.(lockHeld := true);
      case Released =>
    }
    if !script.answers(6).unlock.Released? {
      var kept := Save(c, start, script, 7, record, Settle(next), next);
      IsEnded(c, start, script, 8, if kept then next else record);
      return false;
    }
    next := record.(lockHeld := false, state := OperationState.Discarded, details := Some("candidate reverted"));
    Heard(c, start, script, 7, record, AfterUnlock);
    match script.answers(7).fingerprint {
      case Some(fp) => next := next.(current := fp);
      case None => next := next.(state := Indeterminate, details := Some(script.answers(7).text));
    }
    var saved := Save(c, start, script, 8, record, Settle(next), next);
    IsEnded(c, start, script, 9, if saved then next else record);
    ok := saved && next.state.Discarded?;
  }

  // ---- stage -----------------------------------------------------------------------

  /** There is room, or would be without the finished operations, and no unfinished operation has the
      device or the endpoint. */
  ghost predicate CanReserve(max: nat, ops: Ops, r: Operation) {
    var unfinished := set id | id in ops && !(ops[id].state.Committed? || ops[id].state.Discarded?);
    && (|ops| < max || |unfinished| < max)
    && forall id :: id in unfinished ==> ops[id].device != r.device && ops[id].endpoint != r.endpoint
  }

  lemma ReservedIff(max: nat, m: Ops, disk: Ops, r: Operation, io: WriteResult)
    ensures var o := InsertOp(max, m, disk, r, io);
            && (o.reply.Done? <==> CanReserve(max, m, r) && io.Durable?)
            && (o.reply.Done? ==> o.disk == o.mem && r.id in o.mem && o.mem[r.id] == r)
            && (o.reply.Refused? ==> o.mem.Keys <= m.Keys)
  {
    var unfinished := set id | id in m && !(m[id].state.Committed? || m[id].state.Discarded?);
    var kept := EvictOps(m, max);
    if |m| >= max {
      assert kept.Keys == unfinished;
      assert |kept| == |kept.Keys|;
    } else {
      assert kept == m;
    }
    assert Busy(kept, r)
      <==> exists id :: id in unfinished && (m[id].device == r.device || m[id].endpoint == r.endpoint);
  }

  /** Reserves the device and the endpoint for a new operation. */
  method ReserveDevice(c: Coordinator, ghost start: World, script: Script, r: Operation, f: Flow) returns (ok: bool)
    requires start == Alone(c.operations, c.file.operations, Working(r, Reserve(f)))
    modifies c`operations, c`file
    ensures if ok then Reached(c, start, script, 1, r, AfterReserve(f, r)) else Ended(c, start, script)
    ensures ok <==> CanReserve(c.cfg.maxOperations, old(c.operations), r) && script.writes(0).Durable?
    ensures ok ==> Recorded(c, r.id, r) && c.file.operations == c.operations
    ensures !ok ==> c.operations.Keys <= old(c.operations).Keys
  {
    ReservedIff(c.cfg.maxOperations, c.operations, c.file.operations, r, script.writes(0));
    hide AfterReserve, InsertOp, CanReserve;
    OnlyThread(Working(r, Reserve(f)));
    assert Drive(LimitsOf(c.cfg), start, script, 0) == start;
    DriveOn(LimitsOf(c.cfg), start, script, 0);
    hide Drive;
    assert !AfterReserve(f, r).Finished? by { NotOver(f, r); }
    var reply := c.InsertOperation(r, script.writes(0));
    ok := reply.Done?;
    if !ok {
      assert EndsAt(c, start, script, 1);
    }
  }

  lemma NotOver(f: Flow, r: Operation)
    ensures !AfterReserve(f, r).Finished?
  {
  }

  /** Gives the reservation up. */
  method DropRecord(c: Coordinator, ghost start: World, script: Script, k: nat, r: Operation, ghost f: Flow)
    requires Reached(c, start, script, k, r, Drop(f))
    modifies c`operations, c`file
    ensures Ended(c, start, script) && r.id !in c.operations
  {
    hide Drive;
    DriveOn(LimitsOf(c.cfg), start, script, k);
    OnlyThread(Working(r, Drop(f)));
    c.RemoveOperation(r.id, script.writes(k));
    assert EndsAt(c, start, script, k + 1);
  }

  /** The record as it is kept when nobody knows what the device did. */
  function Unresolved(r: Operation, current: string, text: string): Operation {
    r.(state := Indeterminate, current := current, details := Some(text), lockHeld := true)
  }

  /** Keeps the record as unresolved, best effort. */
  method KeepUnresolved(c: Coordinator, ghost start: World, script: Script, k: nat, r: Operation,
                        current: string, text: string)
    returns (saved: bool)
    requires Reached(c, start, script, k, r, GiveUp(r, current, text))
    modifies c`operations, c`file
    ensures Ended(c, start, script) && saved == script.writes(k).Durable?
    ensures if saved then Recorded(c, r.id, Unresolved(r, current, text)) else c.operations == old(c.operations)
  {
    hide Reached, Ended;
    var next := Unresolved(r, current, text);
    saved := Save(c, start, script, k, r, GiveUp(r, current, text), next);
    IsEnded(c, start, script, k + 1, if saved then next else r);
  }

  /** Nothing was staged: release a lock taken on the way in, and drop the reservation. A stage keeps it
      if the release could not be confirmed. */
  method BackOut(c: Coordinator, ghost start: World, script: Script, k: nat, r: Operation, f: Flow, locked: bool)
    requires Reached(c, start, script, k, r, if locked then Unlock(f) else Drop(f))
    requires r.id in c.operations && c.operations[r.id] == r
    modifies c`operations, c`file
    ensures Ended(c, start, script)
    ensures if f.apply || !locked || script.answers(k).unlock.Released? then r.id !in c.operations
            else && r.id in c.operations
                 && c.operations[r.id] == if script.writes(k + 1).Durable?
                                          then Unresolved(r, r.current, script.answers(k).text) else r
  {
    hide Reached, Ended;
    if !locked {
      DropRecord(c, start, script, k, r, f);
      return;
    }
    Heard(c, start, script, k, r, Unlock(f));
    if script.answers(k).unlock.Released? || f.apply {
      DropRecord(c, start, script, k + 1, r, f);
      return;
    }
    var _ := KeepUnresolved(c, start, script, k + 1, r, r.current, script.answers(k).text);
  }

  /** What a stage call issued at step `k` leaves: staged, with the fingerprint read after it; or else
      unresolved, or as it was if that could not be written either. Always with the lock flag. */
  ghost predicate StageLeaves(c: Coordinator, script: Script, k: nat, r: Operation, handle: bool)
    reads c
  {
    var a := script.answers(k + 1);
    var staged := a.staged && a.fingerprint.Some?;
    && (handle <==> staged && script.writes(k + 2).Durable?)
    && (handle ==> Recorded(c, r.id, r.(state := Staged, current := a.fingerprint.value, lockHeld := true)))
    && (!handle ==>
          && r.id in c.operations
          && c.operations[r.id] == if script.writes(if staged then k + 3 else k + 2).Durable?
                                   then Unresolved(r, if staged then a.fingerprint.value else r.current, a.text)
                                   else r)
  }

  /** The staging call and what follows it. `handle`: the caller gets the staged candidate. */
  method StageNow(c: Coordinator, ghost start: World, script: Script, k: nat, r: Operation, f: Flow, locked: bool)
    returns (handle: bool)
    requires !f.apply && Reached(c, start, script, k, r, IssueStage(f, locked))
    requires r.id in c.operations && c.operations[r.id] == r
    modifies c`operations, c`file
    ensures Ended(c, start, script) && StageLeaves(c, script, k, r, handle)
  {
    hide Reached, Ended;
    Heard(c, start, script, k, r, IssueStage(f, locked));
    Heard(c, start, script, k + 1, r, InStage(f, locked));
    var a := script.answers(k + 1);
    if !a.staged || a.fingerprint.None? {
      var _ := KeepUnresolved(c, start, script, k + 2, r, r.current, a.text);
      return false;
    }
    var fp := a.fingerprint.value;
    var next := r.(current := fp, state := Staged, lockHeld := true);
    handle := Save(c, start, script, k + 2, r, AfterStage(f, locked, r, a), next);
    if handle {
      IsEnded(c, start, script, k + 3, next);
    } else {
      var _ := KeepUnresolved(c, start, script, k + 3, r, fp, a.text);
    }
  }

  /** What a check made at step `k`, with the lock taken or not, leads to. Staging goes ahead only if
      the check passed and the lock risk is on record; if not, the reservation is gone, unless a lock
      that was taken could not be released. */
  ghost predicate CheckLeaves(c: Coordinator, script: Script, k: nat, r: Operation, locked: bool, handle: bool)
    reads c
  {
    if script.answers(k).ok && script.writes(k + 1).Durable? then
      StageLeaves(c, script, k + 2, r.(lockHeld := true), handle)
    else
      var u := if script.answers(k).ok then k + 2 else k + 1;
      && !handle
      && (r.id in c.operations <==> locked && !script.answers(u).unlock.Released?)
      && (r.id in c.operations ==>
            c.operations[r.id] == if script.writes(u + 1).Durable?
                                  then Unresolved(r, r.current, script.answers(u).text) else r)
  }

  /** Checks the fingerprint and stages, or backs out. */
  method CheckAndStage(c: Coordinator, ghost start: World, script: Script, k: nat, r: Operation, f: Flow, locked: bool)
    returns (handle: bool)
    requires !f.apply && Reached(c, start, script, k, r, Check(f, locked))
    requires r.id in c.operations && c.operations[r.id] == r
    modifies c`operations, c`file
    ensures Ended(c, start, script) && CheckLeaves(c, script, k, r, locked, handle)
  {
    hide Reached, Ended, StageLeaves;
    Heard(c, start, script, k, r, Check(f, locked));
    if !script.answers(k).ok {
      BackOut(c, start, script, k + 1, r, f, locked);
      return false;
    }
    var next := r.(lockHeld := true);
    ghost var pc := MarkLock(r, IssueStage(f, locked), if locked then Unlock(f) else Drop(f));
    var saved := Save(c, start, script, k + 1, r, pc, next);
    if !saved {
      BackOut(c, start, script, k + 2, r, f, locked);
      return false;
    }
    handle := StageNow(c, start, script, k + 2, next, f, locked);
  }

  /** What the whole stage leaves. */
  ghost predicate StageEnds(c: Coordinator, script: Script, record: Operation, lock: bool, reserved: bool, handle: bool)
    reads c
  {
    if !reserved then !handle
    else if !lock then CheckLeaves(c, script, 1, record, false, handle)
    else if !script.writes(1).Durable? || !script.answers(3).ok then !handle && record.id !in c.operations
    else CheckLeaves(c, script, 4, record.(lockHeld := true), true, handle)
  }

  /** Reserves the device, takes its lock if it has one, the risk of that on record first, checks the
      fingerprint and stages. */
  method StageOperation(c: Coordinator, record: Operation, lock: bool, script: Script) returns (handle: bool)
    modifies c`operations, c`file
    ensures Ended(c, Alone(old(c.operations), old(c.file.operations), Working(record, Reserve(Flow(false, lock)))),
                  script)
    ensures var reserved := CanReserve(c.cfg.maxOperations, old(c.operations), record) && script.writes(0).Durable?;
            && StageEnds(c, script, record, lock, reserved, handle)
            && (!reserved ==> c.operations.Keys <= old(c.operations).Keys)
  {
    hide Reached, Ended, CheckLeaves, CanReserve;
    var f := Flow(false, lock);
    ghost var start := Alone(c.operations, c.file.operations, Working(record, Reserve(f)));
    var ok := ReserveDevice(c, start, script, record, f);
    if !ok {
      return false;
    }
    if !lock {
      handle := CheckAndStage(c, start, script, 1, record, f, false);
      return;
    }
    var next := record.(lockHeld := true);
    var saved := Save(c, start, script, 1, record, AfterReserve(f, record), next);
    if !saved {
      DropRecord(c, start, script, 2, record, f);
      return false;
    }
    Heard(c, start, script, 2, next, TakeLock(f));
    Heard(c, start, script, 3, next, Locking(f));
    if !script.answers(3).ok {
      DropRecord(c, start, script, 4, next, f);
      return false;
    }
    handle := CheckAndStage(c, start, script, 4, next, f, true);
  }
}
