/** Stage, apply, validate, commit and discard as concurrent threads over the operation store.

    A thread exists while it holds its device's guard and has its own copy of the record it works
    on. Every lock-held section and every device call is one step; what the device, the caller and
    the file system do is a parameter of the step, so a run is a sequence of steps. */
module OperationProtocol {
  import opened Lifecycle
  import opened Text
  import opened Records
  import opened OperationStore

  /** `apply_change_set` or `stage_operation`, and whether the device takes a configuration lock. */
  datatype Flow = Flow(apply: bool, lock: bool)

  datatype Work = Diff | Validate | Commit | DiscardCandidate

  datatype Call = StageCall | CommitCall | RollbackCall

  /** A call that was issued and whose outcome is not durably recorded. `tried` is an outcome
      record that reached the file in a write reported as failed. */
  datatype Unsettled = Unsettled(call: Call, tried: Option<Operation>)

  datatype CommitAnswer =
    | Reconciled(succeeded: bool, job: Option<string>, note: Option<string>)
    | Detached(job: Option<string>)
    | AwaitingConfirmation(job: Option<string>, deadline: nat, note: Option<string>)
    | Unknown
    | CommitError
  datatype RollbackAnswer = Reverted | Rejected | Unclear
  datatype UnlockAnswer = Released | Unsupported | UnlockError

  /** Everything a device call or a caller-side check may answer. `lockLeft` is what the caller is not
      told: a lock or stage call that failed has left the device locked all the same. */
  datatype Answer = Answer(ok: bool, staged: bool, lockLeft: bool, fingerprint: Option<string>, text: string,
                           commit: CommitAnswer, rollback: RollbackAnswer, unlock: UnlockAnswer)

  /** Where a thread is. `Writing` is about to update the record to `next`. */
  datatype Pc =
    | Reserve(flow: Flow) | Claim(flow: Flow) | TakeLock(flow: Flow) | Locking(flow: Flow)
    | Check(flow: Flow, locked: bool) | IssueStage(flow: Flow, locked: bool) | InStage(flow: Flow, locked: bool)
    | Unlock(flow: Flow) | Drop(flow: Flow)
    | Inspect(work: Work) | InValidate
    | IssueCommit | InCommit
    | IssueRollback | InRollback | DiscardUnlock | AfterUnlock
    | Writing(next: Operation, settles: bool, onSaved: Pc, onFailed: Pc)
    | Finished

  datatype Thread =
    | Waiting(id: string, owner: string, device: string, work: Work)
    | Working(record: Operation, pc: Pc)

  datatype World = World(
    mem: Option<Ops>, disk: Ops, threads: map<nat, Thread>, used: set<string>,
    unsettled: map<string, Unsettled>, locks: set<string>)

  /** The kinds of flow in use, and whether the devices promise that a failed lock or stage call leaves
      no lock of its own behind. */
  datatype Limits = Limits(maxOperations: nat, flows: set<Flow>, cleanFailures: bool)

  datatype Step =
    | Begin(tid: nat, record: Operation, flow: Flow)
    | Enter(tid: nat, id: string, owner: string, device: string, work: Work)
    | Run(tid: nat, answer: Answer, io: WriteResult)
    | OtherPersist(io: WriteResult)
    | Crash
    | Load(policy: StagedRecovery, io: WriteResult)
    | Resolve(id: string, disposition: Disposition, io: WriteResult)

  function IdOf(t: Thread): string {
    match t case Waiting(id, _, _, _) => id case Working(r, _) => r.id
  }

  function DeviceOf(t: Thread): string {
    match t case Waiting(_, _, d, _) => d case Working(r, _) => r.device
  }

  predicate GuardFree(w: World, device: string) {
    forall t :: t in w.threads ==> DeviceOf(w.threads[t]) != device
  }

  // ---- one thread -----------------------------------------------------------

  predicate Admissible(work: Work, s: OperationState) {
    match work
    case Diff => s.Staged? || s.Validated? || s.Failed?
    case Validate => s.Staged?
    case Commit => s.Validated?
    case DiscardCandidate => !(s.Validating? || s.Committing? || s.Committed? || s.Discarded? || s.Indeterminate?)
  }

  function MarkLock(r: Operation, onSaved: Pc, onFailed: Pc): Pc {
    Writing(r.(lockHeld := true), false, onSaved, onFailed)
  }

  function AfterReserve(f: Flow, r: Operation): Pc {
    if f.apply then Claim(f)
    else if f.lock then MarkLock(r, TakeLock(f), Drop(f))
    else Check(f, false)
  }

  /** The best-effort write a failed stage leaves behind. */
  function GiveUp(r: Operation, current: string, text: string): Pc {
    Writing(r.(state := Indeterminate, current := current, details := Some(text), lockHeld := true),
            true, Finished, Finished)
  }

  function Settle(next: Operation): Pc {
    Writing(next, true, Finished, Finished)
  }

  function AfterStage(f: Flow, locked: bool, r: Operation, a: Answer): Pc {
    if !a.staged then (if f.apply then Drop(f) else GiveUp(r, r.current, a.text))
    else if a.fingerprint.None? then GiveUp(r, r.current, a.text)
    else
      var fp := a.fingerprint.value;
      Writing(r.(current := fp, state := Staged, lockHeld := true,
                 details := if f.apply then Some(a.text) else r.details),
              true, Finished, GiveUp(r, fp, a.text))
  }

  function AfterInspect(work: Work, r: Operation, a: Answer): Pc {
    if !a.ok then Finished else
    match work
    case Diff => Finished
    case Validate => Writing(r.(state := Validating), false, InValidate, Finished)
    case Commit => Writing(r.(state := Committing, attribution := Some(a.text)), false, IssueCommit, Finished)
    case DiscardCandidate =>
      Writing(r.(state := Indeterminate, details := Some("rollback in progress")), false, IssueRollback, Finished)
  }

  function CommitResult(r: Operation, c: CommitAnswer, text: string): Operation {
    match c
    case Reconciled(true, job, note) =>
      r.(state := OperationState.Committed, jobId := job, details := note, lockHeld := false)
    case Reconciled(false, job, note) => r.(state := OperationState.Failed, jobId := job, details := note)
    case Detached(job) => r.(jobId := job)
    case AwaitingConfirmation(job, deadline, note) =>
      r.(jobId := job, details := note, rollbackDeadline := Some(deadline), lockHeld := false)
    case Unknown => r.(state := Indeterminate, details := Some(text))
    case CommitError => r.(state := OperationState.Failed, details := Some(text))
  }

  /** A successful commit, provisional or not, releases the device lock. */
  predicate CommitReleases(c: CommitAnswer) {
    c.AwaitingConfirmation? || (c.Reconciled? && c.succeeded)
  }

  function AfterRollback(r: Operation, a: Answer): Pc {
    match a.rollback
    case Reverted =>
      Writing(r.(state := Indeterminate, details := Some("candidate reverted; verifying lock release")),
              false, DiscardUnlock, Finished)
    case Rejected => Settle(r.(state := OperationState.Failed, details := Some(a.text)))
    case Unclear => Settle(r.(state := Indeterminate, details := Some(a.text)))
  }

  function AfterDiscardUnlock(r: Operation, a: Answer): Pc {
    match a.unlock
    case Released => AfterUnlock
    case Unsupported => Settle(r.(state := Indeterminate, details := Some(a.text)))
    case UnlockError => Settle(r.(state := Indeterminate, details := Some(a.text), lockHeld := true))
  }

  function Finish(r: Operation, a: Answer): Operation {
    if a.fingerprint.Some?
    then r.(lockHeld := false, state := OperationState.Discarded, current := a.fingerprint.value,
            details := Some("candidate reverted"))
    else r.(lockHeld := false, state := Indeterminate, details := Some(a.text))
  }

  /** Where a thread goes next, at every point that is not a store section. */
  function Advance(pc: Pc, r: Operation, a: Answer): Pc {
    match pc
    case Claim(f) =>
      if a.ok then MarkLock(r, if f.lock then TakeLock(f) else Check(f, false), Drop(f)) else Drop(f)
    case TakeLock(f) => Locking(f)
    case Locking(f) => if a.ok then Check(f, true) else Drop(f)
    case Check(f, locked) =>
      var bad := if locked then Unlock(f) else Drop(f);
      if !a.ok then bad
      else if f.apply then IssueStage(f, locked)
      else MarkLock(r, IssueStage(f, locked), bad)
    case IssueStage(f, locked) => InStage(f, locked)
    case InStage(f, locked) => AfterStage(f, locked, r, a)
    case Unlock(f) => if a.unlock.Released? || f.apply then Drop(f) else GiveUp(r, r.current, a.text)
    case Inspect(work) => AfterInspect(work, r, a)
    case InValidate =>
      Settle(if a.ok then r.(state := Validated, details := None)
             else r.(state := OperationState.Failed, details := Some(a.text)))
    case IssueCommit => InCommit
    case InCommit => Settle(CommitResult(r, a.commit, a.text))
    case IssueRollback => InRollback
    case InRollback => AfterRollback(r, a)
    case DiscardUnlock => AfterDiscardUnlock(r, a)
    case AfterUnlock => Settle(Finish(r, a))
    case _ => Finished
  }

  function Issues(pc: Pc): Option<Call> {
    match pc
    case IssueStage(_, _) => Some(StageCall)
    case IssueCommit => Some(CommitCall)
    case IssueRollback => Some(RollbackCall)
    case _ => None
  }

  /** The device's own lock, after a thread's step. A call that may take it counts from the moment
      it is issued. */
  function LocksAfter(locks: set<string>, pc: Pc, id: string, a: Answer): set<string> {
    match pc
    case TakeLock(_) => locks + {id}
    case Locking(_) => if a.ok || a.lockLeft then locks else locks - {id}
    case IssueStage(_, _) => locks + {id}
    case InStage(f, locked) => if f.apply && !a.staged && !locked && !a.lockLeft then locks - {id} else locks
    case Unlock(_) => if a.unlock.Released? then locks - {id} else locks
    case InCommit => if CommitReleases(a.commit) then locks - {id} else locks
    case DiscardUnlock => if a.unlock.Released? then locks - {id} else locks
    case _ => locks
  }

  // ---- the whole system -----------------------------------------------------

  function Resume(threads: map<nat, Thread>, tid: nat, r: Operation, pc: Pc): map<nat, Thread> {
    if pc.Finished? then threads - {tid} else threads[tid := Working(r, pc)]
  }

  function RunInsert(cfg: Limits, w: World, tid: nat, r: Operation, f: Flow, io: WriteResult): World
    requires w.mem.Some?
  {
    var o := InsertOp(cfg.maxOperations, w.mem.value, w.disk, r, io);
    w.(mem := Some(o.mem), disk := o.disk,
       threads := Resume(w.threads, tid, r, if o.reply.Done? then AfterReserve(f, r) else Finished))
  }

  function RunUpdate(w: World, tid: nat, r: Operation, pc: Pc, io: WriteResult): World
    requires w.mem.Some? && pc.Writing?
  {
    var o := UpdateOp(w.mem.value, w.disk, pc.next, io);
    var stored := if o.reply.Done? then pc.next else r;
    w.(mem := Some(o.mem), disk := o.disk,
       threads := Resume(w.threads, tid, stored, if o.reply.Done? then pc.onSaved else pc.onFailed),
       unsettled :=
         if r.id !in w.unsettled then w.unsettled
         else if io.Durable? then (if pc.settles then w.unsettled - {r.id} else w.unsettled)
         else if io.FailedNew? then w.unsettled[r.id := w.unsettled[r.id].(tried := Some(pc.next))]
         else w.unsettled)
  }

  function RunRemove(w: World, tid: nat, r: Operation, io: WriteResult): World
    requires w.mem.Some?
  {
    var o := RemoveOp(w.mem.value, w.disk, r.id, io);
    w.(mem := Some(o.mem), disk := o.disk, threads := w.threads - {tid}, unsettled := w.unsettled - {r.id})
  }

  function RunLocal(w: World, tid: nat, r: Operation, pc: Pc, a: Answer): World {
    w.(threads := Resume(w.threads, tid, r, Advance(pc, r, a)),
       unsettled := if Issues(pc).Some? then w.unsettled[r.id := Unsettled(Issues(pc).value, None)] else w.unsettled,
       locks := LocksAfter(w.locks, pc, r.id, a))
  }

  /** The guard is held: read the record again and check it. */
  function RunRead(w: World, tid: nat, t: Thread): World
    requires w.mem.Some? && t.Waiting?
  {
    var m := w.mem.value;
    if t.id in m && m[t.id].owner == t.owner && m[t.id].device == t.device && Admissible(t.work, m[t.id].state)
    then w.(threads := w.threads[tid := Working(m[t.id], Inspect(t.work))])
    else w.(threads := w.threads - {tid})
  }

  /** The answer as the devices' promise allows it. */
  function Kept(cfg: Limits, a: Answer): Answer {
    if cfg.cleanFailures then a.(lockLeft := false) else a
  }

  function RunThread(cfg: Limits, w: World, tid: nat, a: Answer, io: WriteResult): World
    requires w.mem.Some? && tid in w.threads
  {
    match w.threads[tid]
    case Waiting(_, _, _, _) => RunRead(w, tid, w.threads[tid])
    case Working(r, pc) =>
      match pc
      case Reserve(f) => RunInsert(cfg, w, tid, r, f, io)
      case Writing(_, _, _, _) => RunUpdate(w, tid, r, pc, io)
      case Drop(_) => RunRemove(w, tid, r, io)
      case _ => RunLocal(w, tid, r, pc, Kept(cfg, a))
  }

  /** A new record as `stage_operation` and `apply_change_set` build it, under a fresh id. */
  predicate CanBegin(cfg: Limits, w: World, tid: nat, r: Operation, f: Flow) {
    && w.mem.Some? && tid !in w.threads && GuardFree(w, r.device)
    && r.id !in w.used && r.state.Staging? && !r.lockHeld && r.jobId.None?
    && f in cfg.flows
  }

  function Next(cfg: Limits, w: World, s: Step): World {
    match s
    case Begin(tid, r, f) =>
      if !CanBegin(cfg, w, tid, r, f) then w
      else w.(threads := w.threads[tid := Working(r, Reserve(f))], used := w.used + {r.id})
    case Enter(tid, id, owner, device, work) =>
      if w.mem.None? || tid in w.threads || !GuardFree(w, device) then w
      else w.(threads := w.threads[tid := Waiting(id, owner, device, work)])
    case Run(tid, a, io) =>
      if w.mem.None? || tid !in w.threads then w else RunThread(cfg, w, tid, a, io)
    case OtherPersist(io) =>
      if w.mem.None? then w else w.(disk := WrittenOps(io, w.mem.value, w.disk))
    case Crash => w.(mem := None, threads := map[])
    case Load(policy, io) =>
      if w.mem.Some? then w
      else
        // A load that finds nothing to settle writes nothing: that is `Durable` here.
        var n := RecoverOps(w.disk, policy);
        if io.Durable? then w.(mem := Some(n), disk := n, unsettled := map[])
        else w.(disk := WrittenOps(io, n, w.disk))
    case Resolve(id, d, io) =>
      if w.mem.Some? || id !in w.disk || OperationTerminal(w.disk[id].state) || io.FailedOld? then w
      // The operator has reconciled the device, its lock included.
      else w.(disk := w.disk[id := Resolved(w.disk[id], d)],
              unsettled := w.unsettled - {id}, locks := w.locks - {id})
  }

  function At(cfg: Limits, start: World, run: seq<Step>, k: nat): World
    requires k <= |run|
  {
    if k == 0 then start else Next(cfg, At(cfg, start, run, k - 1), run[k - 1])
  }
}
