/** Theorems about every run of the operation protocol. */
module OperationTheorems {
  import opened Lifecycle
  import opened Text
  import opened Records
  import opened OperationStore
  import opened OperationProtocol
  import opened OperationInvariant

  // ---- exclusion ----------------------------------------------------------------

  /** No two unfinished operations ever share a device or an endpoint, in memory or in the file. */
  lemma NoTwoOperationsOnOneDevice(cfg: Limits, start: World, run: seq<Step>, k: nat)
    requires Initial(start) && k <= |run|
    ensures var w := At(cfg, start, run, k);
            Exclusive(w.disk) && (w.mem.Some? ==> Exclusive(w.mem.value))
  {
    Reachable(cfg, start, run, k);
  }

  // ---- finality -----------------------------------------------------------------

  /** `r` is the only thing that is, or ever will be, recorded under `id`. */
  ghost predicate Sealed(w: World, id: string, r: Operation) {
    && id in w.used
    && (w.mem.Some? && id in w.mem.value ==> w.mem.value[id] == r)
    && (id in w.disk ==> w.disk[id] == r)
    && (forall t :: t in w.threads && w.threads[t].Working? ==> IdOf(w.threads[t]) != id)
  }

  lemma TerminalIsSealed(w: World, id: string)
    requires Inv(w) && w.mem.Some? && id in w.mem.value && Terminal(w.mem.value[id])
    ensures Sealed(w, id, w.mem.value[id])
  {
    assert FinalOk(w, id);
    forall t | t in w.threads && w.threads[t].Working? ensures IdOf(w.threads[t]) != id {
      NoThreadOnTerminal(w, t, id);
    }
  }

  lemma NoThreadOnTerminal(w: World, t: nat, id: string)
    requires w.mem.Some? && t in w.threads && w.threads[t].Working? && ThreadOk(w, w.threads[t])
    requires id in w.mem.value && Terminal(w.mem.value[id])
    ensures IdOf(w.threads[t]) != id
  {
    var x := w.threads[t];
    NotTerminal(x.pc, x.record, CallOn(w, x.record.id));
    hide PcOk;
  }

  lemma SealSurvives(cfg: Limits, w: World, s: Step, id: string, r: Operation)
    requires Inv(w) && Sealed(w, id, r) && Terminal(r)
    ensures Sealed(Next(cfg, w, s), id, r)
  {
    hide Inv;
    match s
    case Run(tid, a, io) =>
      if w.mem.Some? && tid in w.threads {
        SealSurvivesRun(cfg, w, tid, a, io, id, r);
      }
    case _ =>
  }

  lemma SealSurvivesRun(cfg: Limits, w: World, tid: nat, a: Answer, io: WriteResult, id: string, r: Operation)
    requires Inv(w) && Sealed(w, id, r) && Terminal(r) && w.mem.Some? && tid in w.threads
    ensures Sealed(RunThread(cfg, w, tid, a, io), id, r)
  {
    hide Inv, RunThread;
    if w.threads[tid].Waiting? {
      RunIsRead(cfg, w, tid, a, io);
      KeysAreIds(w);
    } else {
      RunTouchesOne(cfg, w, tid, a, io, id);
    }
  }

  lemma KeysAreIds(w: World)
    requires Inv(w) && w.mem.Some?
    ensures forall id :: id in w.mem.value ==> w.mem.value[id].id == id
  {
  }

  lemma RunIsRead(cfg: Limits, w: World, tid: nat, a: Answer, io: WriteResult)
    requires w.mem.Some? && tid in w.threads && w.threads[tid].Waiting?
    ensures RunThread(cfg, w, tid, a, io) == RunRead(w, tid, w.threads[tid])
  {
  }

  /** The step of thread `tid` is its own: no other thread moves, and it stays on its operation. */
  ghost predicate OwnStep(w: World, n: World, tid: nat)
    requires tid in w.threads
  {
    && n.mem.Some? && n.used == w.used
    && n.threads.Keys <= w.threads.Keys
    && (forall t :: t in n.threads && t != tid ==> n.threads[t] == w.threads[t])
    && (tid in n.threads ==> n.threads[tid].Working? && IdOf(n.threads[tid]) == IdOf(w.threads[tid]))
  }

  /** A thread's step frames every operation but its own. */
  lemma RunTouchesOne(cfg: Limits, w: World, tid: nat, a: Answer, io: WriteResult, x: string)
    requires Inv(w) && w.mem.Some? && tid in w.threads && w.threads[tid].Working? && IdOf(w.threads[tid]) != x
    ensures var n := RunThread(cfg, w, tid, a, io);
            n.mem.Some? && FrameAt(w, n, x) && OwnStep(w, n, tid)
  {
    hide Inv, FrameAt, RunInsert, RunUpdate, RunRemove, RunLocal;
    var Working(r, pc) := w.threads[tid];
    WritesItsOwn(w, tid);
    match pc
    case Reserve(f) =>
      InsertFrame(cfg, w, tid, r, f, io, x);
      InsertOwn(cfg, w, tid, r, f, io);
    case Writing(_, _, _, _) =>
      UpdateFrame(w, tid, r, pc, io, x);
      UpdateOwn(w, tid, r, pc, io);
    case Drop(_) => RemoveFrame(w, tid, r, io, x);
    case _ =>
      LocalFrame(w, tid, r, pc, Kept(cfg, a), x);
      LocalOwn(w, tid, r, pc, Kept(cfg, a));
  }

  lemma WritesItsOwn(w: World, tid: nat)
    requires Inv(w) && w.mem.Some? && tid in w.threads && w.threads[tid].Working?
    ensures w.threads[tid].pc.Writing? ==> w.threads[tid].pc.next.id == w.threads[tid].record.id
  {
    assert ThreadOk(w, w.threads[tid]);
  }

  lemma InsertOwn(cfg: Limits, w: World, tid: nat, r: Operation, f: Flow, io: WriteResult)
    requires w.mem.Some? && tid in w.threads && IdOf(w.threads[tid]) == r.id
    ensures OwnStep(w, RunInsert(cfg, w, tid, r, f, io), tid)
  {
    hide InsertOp, AfterReserve;
  }

  lemma UpdateOwn(w: World, tid: nat, r: Operation, pc: Pc, io: WriteResult)
    requires w.mem.Some? && tid in w.threads && IdOf(w.threads[tid]) == r.id && pc.Writing? && pc.next.id == r.id
    ensures OwnStep(w, RunUpdate(w, tid, r, pc, io), tid)
  {
    hide UpdateOp;
  }

  lemma RemoveFrame(w: World, tid: nat, r: Operation, io: WriteResult, x: string)
    requires w.mem.Some? && tid in w.threads && x != r.id
    ensures FrameAt(w, RunRemove(w, tid, r, io), x) && OwnStep(w, RunRemove(w, tid, r, io), tid)
  {
  }

  lemma LocalOwn(w: World, tid: nat, r: Operation, pc: Pc, a: Answer)
    requires w.mem.Some? && tid in w.threads && IdOf(w.threads[tid]) == r.id
    ensures OwnStep(w, RunLocal(w, tid, r, pc, a), tid)
  {
    hide LocksAfter, Advance;
  }

  lemma {:induction false} SealedForever(cfg: Limits, start: World, run: seq<Step>, i: nat, j: nat, id: string,
                                         r: Operation)
    requires Initial(start) && i <= j <= |run|
    requires Sealed(At(cfg, start, run, i), id, r) && Terminal(r)
    ensures Sealed(At(cfg, start, run, j), id, r)
    decreases j
  {
    hide Sealed;
    if i < j {
      SealedForever(cfg, start, run, i, j - 1, id, r);
      Reachable(cfg, start, run, j - 1);
      SealSurvives(cfg, At(cfg, start, run, j - 1), run[j - 1], id, r);
    }
  }

  /** A committed or discarded operation is never changed by a later step, a restart or an
      offline resolution: whenever its id is found again it names the very same record. */
  lemma FinishedIsFinal(cfg: Limits, start: World, run: seq<Step>, i: nat, j: nat, id: string)
    requires Initial(start) && i <= j <= |run|
    requires var w := At(cfg, start, run, i); w.mem.Some? && id in w.mem.value && Terminal(w.mem.value[id])
    ensures var r := At(cfg, start, run, i).mem.value[id];
            var n := At(cfg, start, run, j);
            (id in n.disk ==> n.disk[id] == r)
            && (n.mem.Some? && id in n.mem.value ==> n.mem.value[id] == r)
  {
    Reachable(cfg, start, run, i);
    TerminalIsSealed(At(cfg, start, run, i), id);
    SealedForever(cfg, start, run, i, j, id, At(cfg, start, run, i).mem.value[id]);
  }

  /** Whatever a server does, from any reachable state: finished operations stay as they are or are
      evicted, in memory and in whatever it leaves in the file. */
  lemma ServersKeepFinished(cfg: Limits, start: World, run: seq<Step>, k: nat)
    requires Initial(start) && k < |run| && At(cfg, start, run, k).mem.Some?
    ensures var w := At(cfg, start, run, k);
            var n := At(cfg, start, run, k + 1);
            KeepsFinished(w.mem.value, n.disk) && (n.mem.Some? ==> KeepsFinished(w.mem.value, n.mem.value))
  {
    hide Inv, Next, Sealed;
    var w := At(cfg, start, run, k);
    var n := At(cfg, start, run, k + 1);
    Reachable(cfg, start, run, k);
    assert n == Next(cfg, w, run[k]);
    forall id | id in w.mem.value && Terminal(w.mem.value[id])
      ensures (id in n.disk ==> n.disk[id] == w.mem.value[id])
              && (n.mem.Some? && id in n.mem.value ==> n.mem.value[id] == w.mem.value[id])
    {
      TerminalIsSealed(w, id);
      SealSurvives(cfg, w, run[k], id, w.mem.value[id]);
      SealedMeans(n, id, w.mem.value[id]);
    }
  }

  lemma SealedMeans(w: World, id: string, r: Operation)
    requires Sealed(w, id, r)
    ensures id in w.disk ==> w.disk[id] == r
    ensures w.mem.Some? && id in w.mem.value ==> w.mem.value[id] == r
  {
  }

  // ---- write-ahead --------------------------------------------------------------

  /** The server stops here and is started again. */
  function Restarted(cfg: Limits, w: World, policy: StagedRecovery): World {
    Next(cfg, Next(cfg, w, Crash), Load(policy, Durable))
  }

  function Calling(pc: Pc): Option<Call> {
    match pc
    case InStage(_, _) => Some(StageCall)
    case InCommit => Some(CommitCall)
    case InRollback => Some(RollbackCall)
    case _ => None
  }

  /** A stop while a stage, commit or rollback call is out: the operation comes back
      `Indeterminate`, with the lock flag set if the call was a stage. */
  lemma StopDuringCall(cfg: Limits, start: World, run: seq<Step>, k: nat, tid: nat, policy: StagedRecovery)
    requires Initial(start) && k <= |run|
    requires var w := At(cfg, start, run, k);
             tid in w.threads && w.threads[tid].Working? && Calling(w.threads[tid].pc).Some?
    ensures var w := At(cfg, start, run, k);
            var id := IdOf(w.threads[tid]);
            var n := Restarted(cfg, w, policy);
            && n.mem.Some? && id in n.mem.value
            && n.mem.value[id].state.Indeterminate?
            && (w.threads[tid].pc.InStage? ==> n.mem.value[id].lockHeld)
            && Parked(n, id, n.mem.value[id])
  {
    var w := At(cfg, start, run, k);
    Reachable(cfg, start, run, k);
    assert ThreadOk(w, w.threads[tid]);
    assert w.threads[tid].pc.Finished? || Synced(w, w.threads[tid].record);
    hide At, Inv;
  }

  /** Until the outcome of such a call is durably written, a restart finds the operation
      `Indeterminate`, or still `Staged` where that is retained, or with the very outcome the
      device reported, if that reached the file in a write that was reported as failed. */
  lemma StopBeforeOutcome(cfg: Limits, start: World, run: seq<Step>, k: nat, id: string, policy: StagedRecovery)
    requires Initial(start) && k <= |run| && id in At(cfg, start, run, k).unsettled
    ensures var w := At(cfg, start, run, k);
            var u := w.unsettled[id];
            var n := Restarted(cfg, w, policy);
            && n.mem.Some? && id in n.mem.value
            && var r := n.mem.value[id];
            && (u.call.StageCall? ==> r.lockHeld)
            && (|| r.state.Indeterminate?
                || (policy.Retain? && u.call.StageCall? && r.state.Staged?)
                || (u.tried.Some? && r == RecoverOp(u.tried.value, policy)))
            && (r.state.Indeterminate? ==> Parked(n, id, r))
            && (!Terminal(r) ==> Blocks(cfg, n, r))
  {
    var w := At(cfg, start, run, k);
    Reachable(cfg, start, run, k);
    assert UnsettledOk(w, id);
    hide At, Inv, Blocks;
    var n := Restarted(cfg, w, policy);
    if !Terminal(n.mem.value[id]) {
      UnfinishedBlocks(cfg, n, id);
    }
  }

  /** Every reservation of the operation's device or endpoint is refused. */
  ghost predicate Blocks(cfg: Limits, w: World, r: Operation)
    requires w.mem.Some?
  {
    forall x: Operation, io: WriteResult :: x.device == r.device || x.endpoint == r.endpoint
      ==> InsertOp(cfg.maxOperations, w.mem.value, w.disk, x, io).reply.Refused?
  }

  lemma UnfinishedBlocks(cfg: Limits, w: World, id: string)
    requires w.mem.Some? && id in w.mem.value && !Terminal(w.mem.value[id])
    ensures Blocks(cfg, w, w.mem.value[id])
  {
    var r := w.mem.value[id];
    forall x: Operation, io: WriteResult | x.device == r.device || x.endpoint == r.endpoint
      ensures InsertOp(cfg.maxOperations, w.mem.value, w.disk, x, io).reply.Refused?
    {
      assert id in EvictOps(w.mem.value, cfg.maxOperations);
    }
  }

  // ---- an indeterminate operation blocks its device until it is resolved ------------

  /** Settled as unknown, in memory and in the file, with nobody working on it. */
  ghost predicate Parked(w: World, id: string, r: Operation) {
    && (w.mem.Some? ==> id in w.mem.value && w.mem.value[id] == r)
    && id in w.disk && w.disk[id] == r
    && (forall t :: t in w.threads && w.threads[t].Working? ==> IdOf(w.threads[t]) != id)
  }

  lemma ParkedSurvives(cfg: Limits, w: World, s: Step, id: string, r: Operation)
    requires Inv(w) && Parked(w, id, r) && r.state.Indeterminate?
    requires s.Resolve? ==> s.id != id
    ensures Parked(Next(cfg, w, s), id, r)
  {
    assert id in w.used;
    hide Inv, RecoverOps, RunThread;
    if s.Load? {
      SettledStays(w.disk, s.policy, id);
    }
    match s
    case Run(tid, a, io) =>
      if w.mem.Some? && tid in w.threads {
        ParkedSurvivesRun(cfg, w, tid, a, io, id, r);
      }
    case _ =>
  }

  lemma SettledStays(m: Ops, policy: StagedRecovery, id: string)
    requires id in m && m[id].state.Indeterminate?
    ensures id in RecoverOps(m, policy) && RecoverOps(m, policy)[id] == m[id]
  {
  }

  lemma ParkedSurvivesRun(cfg: Limits, w: World, tid: nat, a: Answer, io: WriteResult, id: string, r: Operation)
    requires Inv(w) && Parked(w, id, r) && r.state.Indeterminate? && w.mem.Some? && tid in w.threads
    ensures Parked(RunThread(cfg, w, tid, a, io), id, r)
  {
    hide Inv, RunThread;
    if w.threads[tid].Waiting? {
      RunIsRead(cfg, w, tid, a, io);
      KeysAreIds(w);
    } else {
      RunTouchesOne(cfg, w, tid, a, io, id);
    }
  }

  /** Until an operator resolves it, an indeterminate operation stays exactly as it is through
      every call, write failure and restart, every call on it ends where it reads the record, and every
      reservation of its device or its endpoint is refused. */
  lemma {:induction false} IndeterminateBlocks(cfg: Limits, start: World, run: seq<Step>, i: nat, j: nat,
                                               id: string, r: Operation)
    requires Initial(start) && i <= j <= |run|
    requires Parked(At(cfg, start, run, i), id, r) && r.state.Indeterminate?
    requires forall k :: i <= k < j && run[k].Resolve? ==> run[k].id != id
    ensures var n := At(cfg, start, run, j);
            Parked(n, id, r) && (n.mem.Some? ==> Blocks(cfg, n, r) && RefusesWork(cfg, n, id))
    decreases j
  {
    hide Inv, Next;
    if i < j {
      IndeterminateBlocks(cfg, start, run, i, j - 1, id, r);
      Reachable(cfg, start, run, j - 1);
      ParkedSurvives(cfg, At(cfg, start, run, j - 1), run[j - 1], id, r);
    }
    if At(cfg, start, run, j).mem.Some? {
      UnfinishedBlocks(cfg, At(cfg, start, run, j), id);
      UnknownIsLeftAlone(cfg, At(cfg, start, run, j), id);
    }
  }

  lemma UnknownIsLeftAlone(cfg: Limits, w: World, id: string)
    requires w.mem.Some? && id in w.mem.value && w.mem.value[id].state.Indeterminate?
    ensures RefusesWork(cfg, w, id)
  {
    forall tid, a, io | tid in w.threads && w.threads[tid].Waiting? && IdOf(w.threads[tid]) == id
      ensures RunThread(cfg, w, tid, a, io) == w.(threads := w.threads - {tid})
    {
      RunIsRead(cfg, w, tid, a, io);
      hide RunThread;
    }
  }

  /** Nothing can be begun on it: whoever gets the guard and reads the record again goes no further. */
  ghost predicate RefusesWork(cfg: Limits, w: World, id: string)
    requires w.mem.Some?
  {
    forall tid, a, io :: tid in w.threads && w.threads[tid].Waiting? && IdOf(w.threads[tid]) == id ==>
      RunThread(cfg, w, tid, a, io) == w.(threads := w.threads - {tid})
  }

  // ---- the outcome of a commit --------------------------------------------------------

  /** What a durably written outcome makes of `r`. Only a device that says so makes it committed, and
      only one that says it did not commit, or could not, makes it failed; an unknown outcome is
      recorded as unknown, and a commit still running or awaiting confirmation as committing. A lock is
      taken as released by nothing but a commit that took effect. */
  ghost predicate CommitLeaves(r: Operation, after: Operation, who: string, a: Answer) {
    var c := a.commit;
    && after == r.(state := after.state, jobId := after.jobId, details := after.details, lockHeld := after.lockHeld,
                   rollbackDeadline := after.rollbackDeadline, attribution := Some(who))
    && (after.state.Committed? <==> c.Reconciled? && c.succeeded)
    && (after.state.Failed? <==> (c.Reconciled? && !c.succeeded) || c.CommitError?)
    && (after.state.Indeterminate? <==> c.Unknown?)
    && (after.state.Committing? <==> c.Detached? || c.AwaitingConfirmation?)
    && (after.lockHeld <==> r.lockHeld && !after.state.Committed? && !c.AwaitingConfirmation?)
    && after.rollbackDeadline == (if c.AwaitingConfirmation? then Some(c.deadline) else r.rollbackDeadline)
    && after.jobId == (if c.Unknown? || c.CommitError? then r.jobId else c.job)
    && (c.Reconciled? || c.AwaitingConfirmation? ==> after.details == c.note)
    && (c.Unknown? || c.CommitError? ==> after.details == Some(a.text))
    && (c.Detached? ==> after.details == r.details)
  }

  /** Somebody else's step leaves a thread where it is. */
  lemma ThreadStays(cfg: Limits, w: World, s: Step, tid: nat)
    requires w.mem.Some? && tid in w.threads && !s.Crash? && !(s.Run? && s.tid == tid)
    ensures var n := Next(cfg, w, s); n.mem.Some? && tid in n.threads && n.threads[tid] == w.threads[tid]
  {
    hide Advance, LocksAfter, InsertOp, UpdateOp, RemoveOp, RecoverOps, AfterReserve, GuardFree, Admissible;
  }

  lemma {:induction false} ThreadWaits(cfg: Limits, start: World, run: seq<Step>, i: nat, j: nat, tid: nat)
    requires i <= j <= |run| && At(cfg, start, run, i).mem.Some? && tid in At(cfg, start, run, i).threads
    requires forall n :: i <= n < j ==> !run[n].Crash? && !(run[n].Run? && run[n].tid == tid)
    ensures var w := At(cfg, start, run, j);
            w.mem.Some? && tid in w.threads && w.threads[tid] == At(cfg, start, run, i).threads[tid]
    decreases j
  {
    hide Next;
    if i < j {
      ThreadWaits(cfg, start, run, i, j - 1, tid);
      ThreadStays(cfg, At(cfg, start, run, j - 1), run[j - 1], tid);
    }
  }

  lemma AnsweredCommit(cfg: Limits, w: World, tid: nat, a: Answer, io: WriteResult)
    requires w.mem.Some? && tid in w.threads && w.threads[tid].Working? && w.threads[tid].pc.InCommit?
    requires w.threads[tid].record.attribution.Some?
    ensures var r := w.threads[tid].record;
            var n := RunThread(cfg, w, tid, a, io);
            && n.mem.Some? && tid in n.threads && n.threads[tid].Working? && n.threads[tid].record == r
            && n.threads[tid].pc.Writing? && n.threads[tid].pc.onSaved.Finished?
            && (r.state.Committing? ==> CommitLeaves(r, n.threads[tid].pc.next, r.attribution.value, a))
  {
    hide LocksAfter;
  }

  lemma WrittenOutcome(cfg: Limits, w: World, tid: nat, a: Answer)
    requires Inv(w) && w.mem.Some? && tid in w.threads && w.threads[tid].Working?
    requires w.threads[tid].pc.Writing? && w.threads[tid].pc.onSaved.Finished?
    requires w.threads[tid].pc.next.id == w.threads[tid].record.id
    ensures var p := w.threads[tid].pc.next;
            var n := RunThread(cfg, w, tid, a, Durable);
            n.mem.Some? && Parked(n, p.id, p)
  {
    var (r, pc) := (w.threads[tid].record, w.threads[tid].pc);
    OthersApart(w, tid, r, pc);
    hide Inv;
  }

  /** Before the device is told to commit, the file says so and says who asked. */
  lemma AttributedBeforeCommit(cfg: Limits, start: World, run: seq<Step>, k: nat, tid: nat)
    requires Initial(start) && k <= |run|
    requires var w := At(cfg, start, run, k);
             tid in w.threads && w.threads[tid].Working? && w.threads[tid].pc.InCommit?
    ensures var w := At(cfg, start, run, k);
            var r := w.threads[tid].record;
            w.mem.Some? && r.id in w.disk && w.disk[r.id] == r && r.state.Committing? && r.attribution.Some?
  {
    Reachable(cfg, start, run, k);
    assert ThreadOk(At(cfg, start, run, k), At(cfg, start, run, k).threads[tid]);
  }

  /** A commit the device answered, whose outcome is then durably written, is on record as answered, in
      memory and in the file, with nobody working on it. */
  lemma CommitIsRecorded(cfg: Limits, start: World, run: seq<Step>, i: nat, j: nat, tid: nat)
    requires Initial(start) && i < j < |run| && run[i].Run? && run[j].Run? && run[i].tid == run[j].tid == tid
    requires forall n :: i < n < j ==> !run[n].Crash? && !(run[n].Run? && run[n].tid == tid)
    requires run[j].io.Durable?
    requires var w := At(cfg, start, run, i);
             tid in w.threads && w.threads[tid].Working? && w.threads[tid].pc.InCommit?
    ensures var r := At(cfg, start, run, i).threads[tid].record;
            var n := At(cfg, start, run, j + 1);
            && r.attribution.Some? && n.mem.Some? && r.id in n.mem.value && Parked(n, r.id, n.mem.value[r.id])
            && CommitLeaves(r, n.mem.value[r.id], r.attribution.value, run[i].answer)
  {
    var w := At(cfg, start, run, i);
    var r := w.threads[tid].record;
    AttributedBeforeCommit(cfg, start, run, i, tid);
    AnsweredCommit(cfg, w, tid, run[i].answer, run[i].io);
    assert At(cfg, start, run, i + 1) == RunThread(cfg, w, tid, run[i].answer, run[i].io) by { hide RunThread; }
    hide RunThread, Inv, Next, CommitLeaves, Parked;
    ThreadWaits(cfg, start, run, i + 1, j, tid);
    var v := At(cfg, start, run, j);
    Reachable(cfg, start, run, j);
    NextIsOwn(r, v.threads[tid].pc.next, run[i].answer);
    WrittenOutcome(cfg, v, tid, run[j].answer);
    RunIsNext(cfg, v, run[j]);
  }

  lemma NextIsOwn(r: Operation, n: Operation, a: Answer)
    requires r.attribution.Some? && CommitLeaves(r, n, r.attribution.value, a)
    ensures n.id == r.id
  {
  }

  lemma RunIsNext(cfg: Limits, w: World, s: Step)
    requires s.Run? && w.mem.Some? && s.tid in w.threads
    ensures Next(cfg, w, s) == RunThread(cfg, w, s.tid, s.answer, s.io)
  {
    hide RunThread;
  }

  /** The critical case: after a commit nobody knows the outcome of, the operation stays on record as
      unknown, nothing more is done with it, and no reservation of its device or endpoint is taken,
      through every call, write failure and restart, until an operator resolves it. */
  lemma UnknownCommitBlocks(cfg: Limits, start: World, run: seq<Step>, i: nat, j: nat, k: nat, tid: nat)
    requires Initial(start) && i < j < k <= |run| && run[i].Run? && run[j].Run? && run[i].tid == run[j].tid == tid
    requires forall n :: i < n < j ==> !run[n].Crash? && !(run[n].Run? && run[n].tid == tid)
    requires run[j].io.Durable? && run[i].answer.commit.Unknown?
    requires var w := At(cfg, start, run, i);
             tid in w.threads && w.threads[tid].Working? && w.threads[tid].pc.InCommit?
    requires var id := IdOf(At(cfg, start, run, i).threads[tid]);
             forall n :: j < n < k && run[n].Resolve? ==> run[n].id != id
    ensures var r := At(cfg, start, run, i).threads[tid].record;
            var n := At(cfg, start, run, k);
            && r.id in n.disk && n.disk[r.id].state.Indeterminate? && Parked(n, r.id, n.disk[r.id])
            && (n.mem.Some? ==> Blocks(cfg, n, r) && RefusesWork(cfg, n, r.id))
  {
    var r := At(cfg, start, run, i).threads[tid].record;
    CommitIsRecorded(cfg, start, run, i, j, tid);
    var p := At(cfg, start, run, j + 1).mem.value[r.id];
    assert p.state.Indeterminate? && p.device == r.device && p.endpoint == r.endpoint;
    hide At, Inv, CommitLeaves, Blocks, RefusesWork;
    IndeterminateBlocks(cfg, start, run, j + 1, k, r.id, p);
    SameDevice(cfg, At(cfg, start, run, k), p, r);
  }

  lemma SameDevice(cfg: Limits, w: World, p: Operation, r: Operation)
    requires p.device == r.device && p.endpoint == r.endpoint
    ensures w.mem.Some? && Blocks(cfg, w, p) ==> Blocks(cfg, w, r)
  {
    hide InsertOp;
  }

  // ---- who may do what, and what an operator does ----------------------------------------

  /** A call gets the guard exactly if the server is up and nobody else is at work on the device; a new
      operation is begun exactly if also its id was never used, it is a fresh reservation, and its flow is
      in use. Nothing else changes. */
  lemma GuardIsExact(cfg: Limits, w: World, s: Step)
    requires s.Enter? || s.Begin?
    ensures var device := if s.Enter? then s.device else s.record.device;
            var free := && w.mem.Some? && s.tid !in w.threads
                        && forall t :: t in w.threads ==> DeviceOf(w.threads[t]) != device;
            var unused := s.Begin? ==> && s.record.id !in w.used && s.flow in cfg.flows && s.record.state.Staging?
                                       && !s.record.lockHeld && s.record.jobId.None?;
            var t := if s.Enter? then Waiting(s.id, s.owner, s.device, s.work) else Working(s.record, Reserve(s.flow));
            var n := Next(cfg, w, s);
            if free && unused
            then n == w.(threads := w.threads[s.tid := t],
                         used := if s.Begin? then w.used + {s.record.id} else w.used)
            else n == w
  {
  }

  /** With the guard held, a call goes on exactly if the operation is the caller's, on that device, and in
      a state the call is for. */
  lemma CallGoesOnIff(cfg: Limits, w: World, tid: nat, a: Answer, io: WriteResult)
    requires w.mem.Some? && tid in w.threads && w.threads[tid].Waiting?
    ensures var t := w.threads[tid];
            var m := w.mem.value;
            var n := RunThread(cfg, w, tid, a, io);
            && n == w.(threads := n.threads) && n.threads - {tid} == w.threads - {tid}
            && (tid in n.threads ==> n.threads[tid] == Working(m[t.id], Inspect(t.work)))
            && (tid in n.threads <==>
                  && t.id in m && m[t.id].owner == t.owner && m[t.id].device == t.device
                  && m[t.id].state in match t.work
                                      case Diff => {Staged, Validated, OperationState.Failed}
                                      case Validate => {Staged}
                                      case Commit => {Validated}
                                      case DiscardCandidate => {Staging, Staged, Validated, OperationState.Failed})
  {
  }

  /** An operator's resolution, made while the server is down and written, settles an unfinished operation
      as they say and takes nothing else. */
  lemma ResolutionIsExact(cfg: Limits, w: World, s: Step)
    requires s.Resolve?
    ensures var may := w.mem.None? && s.id in w.disk
                       && !(w.disk[s.id].state.Committed? || w.disk[s.id].state.Discarded?) && !s.io.FailedOld?;
            var n := Next(cfg, w, s);
            && (!may ==> n == w)
            && (may ==>
                  && s.id in n.disk && n.disk - {s.id} == w.disk - {s.id} && n.mem == w.mem && n.threads == w.threads
                  && var (r, p) := (w.disk[s.id], n.disk[s.id]);
                  && p == r.(state := p.state, lockHeld := false, details := p.details)
                  && p.state == if s.disposition.AsCommitted? then OperationState.Committed
                                else OperationState.Discarded)
  {
  }
}
