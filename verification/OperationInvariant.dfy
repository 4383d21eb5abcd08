/** What every step of the operation protocol keeps. */
module OperationInvariant {
  import opened Lifecycle
  import opened Text
  import opened Records
  import opened OperationStore
  import opened Recovery
  import opened OperationProtocol

  predicate Terminal(r: Operation) { OperationTerminal(r.state) }

  predicate InFlight(s: OperationState) { s.Staging? || s.Committing? || s.Indeterminate? }

  /** No two unfinished operations share a device or an endpoint. */
  ghost predicate Exclusive(m: Ops) {
    forall a, b :: a in m && b in m && a != b && !Terminal(m[a]) && !Terminal(m[b])
      ==> m[a].device != m[b].device && m[a].endpoint != m[b].endpoint
  }

  ghost predicate StoreOk(m: Ops, used: set<string>) {
    && (forall id :: id in m ==> m[id].id == id && id in used)
    && Exclusive(m)
  }

  predicate SameSubject(r: Operation, n: Operation) {
    n.id == r.id && n.owner == r.owner && n.device == r.device && n.endpoint == r.endpoint
  }

  // ---- threads --------------------------------------------------------------

  function CallOn(w: World, id: string): Option<Call> {
    if id in w.unsettled then Some(w.unsettled[id].call) else None
  }

  /** A write of `n` leaves the operation covered while `call` is unsettled. */
  predicate WriteOk(n: Operation, settles: bool, call: Option<Call>) {
    && (call == Some(StageCall) ==> n.lockHeld)
    && (call.Some? && !settles ==> InFlight(n.state))
  }

  /** What holds of a thread's record at each point of its program. */
  predicate PcOk(pc: Pc, r: Operation, call: Option<Call>)
    decreases pc
  {
    pc.Finished? ||
    (&& !Terminal(r)
     && match pc
        case Reserve(_) => r.state.Staging? && call.None?
        case Claim(f) => f.apply && r.state.Staging? && call.None?
        case TakeLock(_) => r.state.Staging? && r.lockHeld && call.None?
        case Locking(_) => r.state.Staging? && r.lockHeld && call.None?
        case Check(f, locked) => r.state.Staging? && call.None? && (f.apply || f.lock || locked ==> r.lockHeld)
        case IssueStage(_, _) => r.state.Staging? && r.lockHeld && call.None?
        case InStage(_, _) => r.state.Staging? && r.lockHeld && call == Some(StageCall)
        case Unlock(_) => r.state.Staging? && r.lockHeld && call.None?
        case Drop(_) => true
        case Inspect(work) => Admissible(work, r.state)
        case InValidate => r.state.Validating? && call.None?
        case IssueCommit => r.state.Committing? && r.attribution.Some? && call.None?
        case InCommit => r.state.Committing? && r.attribution.Some? && call == Some(CommitCall)
        case IssueRollback => r.state.Indeterminate?
        case InRollback => r.state.Indeterminate? && call == Some(RollbackCall)
        case DiscardUnlock => r.state.Indeterminate? && call == Some(RollbackCall)
        case AfterUnlock => r.state.Indeterminate? && call == Some(RollbackCall)
        case Writing(n, settles, saved, failed) =>
          && SameSubject(r, n) && WriteOk(n, settles, call)
          && (Terminal(n) ==> settles && saved.Finished?)
          && !saved.Reserve? && !failed.Reserve? && !Marked(failed)
          && PcOk(saved, n, if settles then None else call)
          && PcOk(failed, r, call)
        case Finished => true)
  }

  /** Points that rely on the file holding the record as the thread knows it. */
  predicate Marked(pc: Pc) {
    match pc
    case Check(f, _) => f.apply || f.lock
    case _ =>
      || pc.TakeLock? || pc.Locking? || pc.IssueStage? || pc.IssueCommit? || pc.IssueRollback?
      || pc.InStage? || pc.InCommit? || pc.InRollback?
  }

  predicate Synced(w: World, r: Operation) {
    r.id in w.disk && w.disk[r.id] == r
  }

  predicate ThreadOk(w: World, t: Thread)
    requires w.mem.Some?
  {
    t.Working? ==>
      && !t.pc.Finished? && t.record.id in w.used
      && PcOk(t.pc, t.record, CallOn(w, t.record.id))
      && (if t.pc.Reserve? then t.record.id !in w.mem.value && t.record.id !in w.disk
          else t.record.id in w.mem.value && w.mem.value[t.record.id] == t.record)
      && (Marked(t.pc) ==> Synced(w, t.record))
  }

  ghost predicate ThreadsApart(threads: map<nat, Thread>) {
    forall s, t :: s in threads && t in threads && s != t ==>
      && DeviceOf(threads[s]) != DeviceOf(threads[t])
      && (threads[s].Working? && threads[t].Working? ==> IdOf(threads[s]) != IdOf(threads[t]))
  }

  // ---- records --------------------------------------------------------------

  /** The file still shows an unsettled operation as such, or shows its true outcome. */
  predicate Covered(d: Operation, u: Unsettled) {
    && (u.call.StageCall? ==> d.lockHeld)
    && (InFlight(d.state) || (u.call.StageCall? && d.state.Staged?) || u.tried == Some(d))
  }

  predicate UnsettledOk(w: World, id: string) {
    id in w.unsettled ==>
      && id in w.disk && Covered(w.disk[id], w.unsettled[id])
      && (w.mem.Some? ==>
            && id in w.mem.value && InFlight(w.mem.value[id].state)
            && (w.unsettled[id].call.StageCall? ==> w.mem.value[id].lockHeld))
  }

  /** A finished record is in the file as it is in memory. */
  predicate FinalOk(w: World, id: string) {
    w.mem.Some? && id in w.mem.value && Terminal(w.mem.value[id]) ==>
      id in w.disk && w.disk[id] == w.mem.value[id]
  }

  ghost predicate Inv(w: World) {
    && StoreOk(w.disk, w.used)
    && (if w.mem.None? then w.threads == map[]
        else StoreOk(w.mem.value, w.used)
             && (forall t :: t in w.threads ==> ThreadOk(w, w.threads[t])))
    && ThreadsApart(w.threads)
    && (forall id {:trigger UnsettledOk(w, id)} :: UnsettledOk(w, id))
    && (forall id {:trigger FinalOk(w, id)} :: FinalOk(w, id))
  }

  // ---- what a step on one operation leaves of the others ----------------------

  predicate FrameAt(w: World, n: World, x: string)
    requires w.mem.Some? && n.mem.Some?
  {
    var (m, k) := (w.mem.value, n.mem.value);
    && (x in k ==> x in m && k[x] == m[x])
    && (x in m && !Terminal(m[x]) ==> x in k)
    && (|| ((x in n.disk <==> x in w.disk) && (x in w.disk ==> n.disk[x] == w.disk[x]))
        || ((x in n.disk <==> x in k) && (x in k ==> n.disk[x] == k[x])))
    && (x in n.unsettled <==> x in w.unsettled)
    && (x in w.unsettled ==> n.unsettled[x] == w.unsettled[x])
    && (x in n.locks <==> x in w.locks)
  }

  lemma FrameThread(w: World, n: World, t: Thread)
    requires w.mem.Some? && n.mem.Some? && w.used <= n.used
    requires ThreadOk(w, t) && FrameAt(w, n, IdOf(t))
    ensures ThreadOk(n, t)
  {
    hide PcOk;
    if t.Working? {
      assert CallOn(n, t.record.id) == CallOn(w, t.record.id);
      assert !t.pc.Reserve? ==> !Terminal(t.record) by {
        NotTerminal(t.pc, t.record, CallOn(w, t.record.id));
      }
    }
  }

  lemma NotTerminal(pc: Pc, r: Operation, call: Option<Call>)
    requires PcOk(pc, r, call)
    ensures pc.Finished? || !Terminal(r)
  {
  }

  lemma FrameRecord(w: World, n: World, x: string)
    requires w.mem.Some? && n.mem.Some? && FrameAt(w, n, x)
    requires UnsettledOk(w, x) && FinalOk(w, x)
    ensures UnsettledOk(n, x) && FinalOk(n, x)
  {
  }

  /** If one thread's step leaves every other operation framed and its own record in order, the
      invariant survives. */
  lemma Assemble(w: World, n: World, tid: nat, id: string)
    requires Inv(w) && w.mem.Some? && n.mem.Some? && n.used == w.used && tid in w.threads
    requires StoreOk(n.disk, n.used) && StoreOk(n.mem.value, n.used)
    requires forall x :: x != id ==> FrameAt(w, n, x)
    requires n.threads.Keys <= w.threads.Keys
    requires forall t :: t in n.threads && t != tid ==> n.threads[t] == w.threads[t]
    requires forall t :: t in w.threads && t != tid && w.threads[t].Working? ==> IdOf(w.threads[t]) != id
    requires tid in n.threads ==> n.threads[tid].Working? && IdOf(n.threads[tid]) == id
                                  && DeviceOf(n.threads[tid]) == DeviceOf(w.threads[tid])
                                  && ThreadOk(n, n.threads[tid])
    requires UnsettledOk(n, id) && FinalOk(n, id)
    ensures Inv(n)
  {
    hide StoreOk, UnsettledOk, FinalOk, PcOk;
    forall t | t in n.threads ensures ThreadOk(n, n.threads[t]) {
      if t != tid && n.threads[t].Working? {
        assert ThreadOk(w, w.threads[t]);
        FrameThread(w, n, n.threads[t]);
      }
    }
    hide ThreadOk;
    forall x ensures UnsettledOk(n, x) && FinalOk(n, x) {
      if x != id {
        assert FinalOk(w, x) && UnsettledOk(w, x);
        FrameRecord(w, n, x);
      }
    }
  }

  // ---- a thread's program is well formed at every point ------------------------

  /** What an unsettled call says about the record in memory. */
  predicate CallFits(r: Operation, call: Option<Call>) {
    (call.Some? ==> InFlight(r.state)) && (call == Some(StageCall) ==> r.lockHeld)
  }

  function CallAfter(pc: Pc, call: Option<Call>): Option<Call> {
    if Issues(pc).Some? then Issues(pc) else call
  }

  predicate IsLocal(pc: Pc) {
    !pc.Reserve? && !pc.Writing? && !pc.Drop? && !pc.Finished?
  }

  lemma WritingOk(r: Operation, n: Operation, settles: bool, saved: Pc, failed: Pc, call: Option<Call>)
    requires !Terminal(r) && SameSubject(r, n) && WriteOk(n, settles, call)
    requires Terminal(n) ==> settles && saved.Finished?
    requires !saved.Reserve? && !failed.Reserve? && !Marked(failed)
    requires PcOk(saved, n, if settles then None else call) && PcOk(failed, r, call)
    ensures PcOk(Writing(n, settles, saved, failed), r, call)
  {
  }

  lemma SettleOk(r: Operation, n: Operation, call: Option<Call>)
    requires !Terminal(r) && SameSubject(r, n) && (call == Some(StageCall) ==> n.lockHeld)
    ensures PcOk(Settle(n), r, call)
  {
    WritingOk(r, n, true, Finished, Finished, call);
  }

  lemma GiveUpOk(r: Operation, current: string, text: string, call: Option<Call>)
    requires !Terminal(r)
    ensures PcOk(GiveUp(r, current, text), r, call)
  {
    SettleOk(r, r.(state := Indeterminate, current := current, details := Some(text), lockHeld := true), call);
  }

  predicate IsStaging(pc: Pc) {
    pc.Claim? || pc.TakeLock? || pc.Locking? || pc.Check? || pc.IssueStage? || pc.InStage? || pc.Unlock?
  }

  lemma StagingAdvanceOk(pc: Pc, r: Operation, call: Option<Call>, a: Answer)
    requires IsStaging(pc) && PcOk(pc, r, call)
    ensures PcOk(Advance(pc, r, a), r, CallAfter(pc, call))
  {
    match pc
    case Claim(f) =>
      var held := r.(lockHeld := true);
      var next := if f.lock then TakeLock(f) else Check(f, false);
      assert PcOk(next, held, None);
      WritingOk(r, held, false, next, Drop(f), None);
    case Check(f, locked) =>
      var bad := if locked then Unlock(f) else Drop(f);
      if a.ok && !f.apply {
        assert PcOk(bad, r, None);
        WritingOk(r, r.(lockHeld := true), false, IssueStage(f, locked), bad, None);
      }
    case InStage(f, locked) =>
      if a.staged && a.fingerprint.Some? {
        GiveUpOk(r, a.fingerprint.value, a.text, call);
        WritingOk(r, AfterStage(f, locked, r, a).next, true, Finished, GiveUp(r, a.fingerprint.value, a.text), call);
      } else {
        GiveUpOk(r, r.current, a.text, call);
      }
    case Unlock(f) => GiveUpOk(r, r.current, a.text, call);
    case _ =>
  }

  lemma WorkAdvanceOk(pc: Pc, r: Operation, call: Option<Call>, a: Answer)
    requires IsLocal(pc) && !IsStaging(pc) && PcOk(pc, r, call) && CallFits(r, call)
    ensures PcOk(Advance(pc, r, a), r, CallAfter(pc, call))
  {
    match pc
    case Inspect(work) =>
      hide PcOk, AfterInspect;
      InspectOk(work, r, call, a);
    case InValidate =>
      SettleOk(r, Advance(pc, r, a).next, call);
      hide PcOk;
    case InCommit =>
      SettleOk(r, CommitResult(r, a.commit, a.text), call);
      hide PcOk;
    case InRollback => RollbackOk(r, call, a);
    case DiscardUnlock =>
      if !a.unlock.Released? {
        SettleOk(r, AfterDiscardUnlock(r, a).next, call);
      }
    case AfterUnlock => SettleOk(r, Finish(r, a), call);
    case _ =>
  }

  /** The program stays well formed across every device call and check. */
  lemma AdvanceOk(pc: Pc, r: Operation, call: Option<Call>, a: Answer)
    requires IsLocal(pc) && PcOk(pc, r, call) && CallFits(r, call)
    ensures PcOk(Advance(pc, r, a), r, CallAfter(pc, call))
  {
    hide Advance, CallAfter, PcOk, CallFits;
    if IsStaging(pc) {
      StagingAdvanceOk(pc, r, call, a);
    } else {
      WorkAdvanceOk(pc, r, call, a);
    }
  }

  lemma RollbackOk(r: Operation, call: Option<Call>, a: Answer)
    requires r.state.Indeterminate? && call == Some(RollbackCall)
    ensures PcOk(AfterRollback(r, a), r, call)
  {
    var p := AfterRollback(r, a);
    if a.rollback.Reverted? {
      WritingOk(r, p.next, false, DiscardUnlock, Finished, call);
    } else {
      SettleOk(r, p.next, call);
    }
  }

  lemma InspectOk(work: Work, r: Operation, call: Option<Call>, a: Answer)
    requires !Terminal(r) && Admissible(work, r.state) && CallFits(r, call)
    ensures PcOk(AfterInspect(work, r, a), r, call)
  {
    if a.ok && !work.Diff? {
      var p := AfterInspect(work, r, a);
      assert PcOk(p.onSaved, p.next, call);
      WritingOk(r, p.next, false, p.onSaved, Finished, call);
    }
  }

  lemma AdvanceMarked(pc: Pc, r: Operation, call: Option<Call>, a: Answer)
    requires IsLocal(pc) && PcOk(pc, r, call)
    ensures Marked(Advance(pc, r, a)) ==> Marked(pc)
    ensures Issues(pc).Some? ==> Marked(pc) && InFlight(r.state) && (pc.IssueStage? ==> r.lockHeld)
    ensures !Advance(pc, r, a).Reserve?
  {
  }

  lemma ReservedOk(f: Flow, r: Operation)
    requires PcOk(Reserve(f), r, None)
    ensures PcOk(AfterReserve(f, r), r, None)
    ensures !AfterReserve(f, r).Reserve? && !Marked(AfterReserve(f, r))
  {
    if !f.apply && f.lock {
      WritingOk(r, r.(lockHeld := true), false, TakeLock(f), Drop(f), None);
    }
  }

  // ---- the store sections keep exclusion ----------------------------------------

  lemma InsertOpOk(max: nat, m: Ops, disk: Ops, r: Operation, io: WriteResult, used: set<string>)
    requires StoreOk(m, used) && StoreOk(disk, used) && r.id in used && r.id !in m
    ensures var o := InsertOp(max, m, disk, r, io); StoreOk(o.mem, used) && StoreOk(o.disk, used)
  {
    var kept := EvictOps(m, max);
    EvictOk(m, max, used);
    hide StoreOk, EvictOps;
    if !Busy(kept, r) {
      AddOk(kept, r, used);
      assert kept - {r.id} == kept;
    }
    hide Busy;
  }

  lemma EvictOk(m: Ops, max: nat, used: set<string>)
    requires StoreOk(m, used)
    ensures StoreOk(EvictOps(m, max), used)
  {
  }

  lemma AddOk(m: Ops, r: Operation, used: set<string>)
    requires StoreOk(m, used) && r.id in used && !Busy(m, r)
    ensures StoreOk(m[r.id := r], used)
  {
  }

  lemma UpdateOpOk(m: Ops, disk: Ops, r: Operation, io: WriteResult, used: set<string>)
    requires StoreOk(m, used) && StoreOk(disk, used)
    requires r.id in m && !Terminal(m[r.id]) && SameSubject(m[r.id], r)
    ensures var o := UpdateOp(m, disk, r, io); StoreOk(o.mem, used) && StoreOk(o.disk, used)
  {
  }

  lemma RemoveOpOk(m: Ops, disk: Ops, id: string, io: WriteResult, used: set<string>)
    requires StoreOk(m, used) && StoreOk(disk, used)
    ensures var o := RemoveOp(m, disk, id, io); StoreOk(o.mem, used) && StoreOk(o.disk, used)
  {
  }

  // ---- thread steps -------------------------------------------------------------

  ghost predicate CanRun(w: World, tid: nat, r: Operation, pc: Pc) {
    Inv(w) && w.mem.Some? && tid in w.threads && w.threads[tid] == Working(r, pc)
  }

  lemma FitsNow(w: World, tid: nat, r: Operation, pc: Pc)
    requires CanRun(w, tid, r, pc) && !pc.Reserve?
    ensures CallFits(r, CallOn(w, r.id)) && !Terminal(r) && PcOk(pc, r, CallOn(w, r.id))
    ensures r.id in w.mem.value && w.mem.value[r.id] == r
  {
    assert ThreadOk(w, w.threads[tid]);
    assert UnsettledOk(w, r.id);
    NotTerminal(pc, r, CallOn(w, r.id));
  }

  lemma LocalOk(w: World, tid: nat, r: Operation, pc: Pc, a: Answer)
    requires CanRun(w, tid, r, pc) && IsLocal(pc)
    ensures Inv(RunLocal(w, tid, r, pc, a))
  {
    hide PcOk, Advance, StoreOk, LocksAfter, CallFits;
    var n := RunLocal(w, tid, r, pc, a);
    assert ThreadOk(w, w.threads[tid]);
    FitsNow(w, tid, r, pc);
    assert UnsettledOk(w, r.id) && FinalOk(w, r.id);
    AdvanceOk(pc, r, CallOn(w, r.id), a);
    AdvanceMarked(pc, r, CallOn(w, r.id), a);
    assert CallOn(n, r.id) == CallAfter(pc, CallOn(w, r.id));
    assert UnsettledOk(n, r.id);
    OthersApart(w, tid, r, pc);
    hide CallAfter, FrameAt;
    Assemble(w, n, tid, r.id) by {
      forall x | x != r.id ensures FrameAt(w, n, x) { LocalFrame(w, tid, r, pc, a, x); }
    }
  }

  lemma LocalFrame(w: World, tid: nat, r: Operation, pc: Pc, a: Answer, x: string)
    requires w.mem.Some? && x != r.id
    ensures FrameAt(w, RunLocal(w, tid, r, pc, a), x)
  {
    hide LocksAfter, Advance, Resume;
    LocksElsewhere(w.locks, pc, r.id, a, x);
  }

  lemma LocksElsewhere(locks: set<string>, pc: Pc, id: string, a: Answer, x: string)
    requires x != id
    ensures x in LocksAfter(locks, pc, id, a) <==> x in locks
  {
  }

  lemma OthersApart(w: World, tid: nat, r: Operation, pc: Pc)
    requires CanRun(w, tid, r, pc)
    ensures forall t :: t in w.threads && t != tid && w.threads[t].Working? ==> IdOf(w.threads[t]) != r.id
  {
    hide StoreOk, ThreadOk, UnsettledOk, FinalOk;
  }

  lemma UpdateFrame(w: World, tid: nat, r: Operation, pc: Pc, io: WriteResult, x: string)
    requires w.mem.Some? && pc.Writing? && pc.next.id == r.id && x != r.id
    ensures FrameAt(w, RunUpdate(w, tid, r, pc, io), x)
  {
  }

  lemma SavedThreadOk(w: World, tid: nat, r: Operation, pc: Pc, io: WriteResult)
    requires w.mem.Some? && pc.Writing? && ThreadOk(w, Working(r, pc))
    ensures var n := RunUpdate(w, tid, r, pc, io);
            var s := if io.Durable? then Working(pc.next, pc.onSaved) else Working(r, pc.onFailed);
            s.pc.Finished? || ThreadOk(n, s)
  {
    var call := CallOn(w, r.id);
    assert SameSubject(r, pc.next) && !Marked(pc.onFailed) && !pc.onSaved.Reserve? && !pc.onFailed.Reserve?;
    assert PcOk(pc.onSaved, pc.next, if pc.settles then None else call) && PcOk(pc.onFailed, r, call);
    hide PcOk, Marked;
  }

  lemma SavedRecordOk(w: World, tid: nat, r: Operation, pc: Pc, io: WriteResult)
    requires w.mem.Some? && pc.Writing? && ThreadOk(w, Working(r, pc)) && UnsettledOk(w, r.id)
    ensures var n := RunUpdate(w, tid, r, pc, io); UnsettledOk(n, r.id) && FinalOk(n, r.id)
  {
    assert SameSubject(r, pc.next) && WriteOk(pc.next, pc.settles, CallOn(w, r.id)) && !Terminal(r);
    hide PcOk;
  }

  lemma UpdateOk(w: World, tid: nat, r: Operation, pc: Pc, io: WriteResult)
    requires CanRun(w, tid, r, pc) && pc.Writing?
    ensures Inv(RunUpdate(w, tid, r, pc, io))
  {
    var n := RunUpdate(w, tid, r, pc, io);
    assert ThreadOk(w, Working(r, pc)) && UnsettledOk(w, r.id);
    assert SameSubject(r, pc.next) && !Terminal(r);
    UpdateOpOk(w.mem.value, w.disk, pc.next, io, w.used);
    OthersApart(w, tid, r, pc);
    SavedRecordOk(w, tid, r, pc, io);
    SavedThreadOk(w, tid, r, pc, io);
    hide PcOk, StoreOk, ThreadOk, UnsettledOk, FinalOk, FrameAt;
    Assemble(w, n, tid, r.id) by {
      forall x | x != r.id ensures FrameAt(w, n, x) { UpdateFrame(w, tid, r, pc, io, x); }
    }
  }

  lemma RemoveOk(w: World, tid: nat, r: Operation, pc: Pc, io: WriteResult)
    requires CanRun(w, tid, r, pc) && pc.Drop?
    ensures Inv(RunRemove(w, tid, r, io))
  {
    OthersApart(w, tid, r, pc);
    RemoveOpOk(w.mem.value, w.disk, r.id, io, w.used);
    hide StoreOk, ThreadOk;
    Assemble(w, RunRemove(w, tid, r, io), tid, r.id);
  }

  lemma InsertFrame(cfg: Limits, w: World, tid: nat, r: Operation, f: Flow, io: WriteResult, x: string)
    requires w.mem.Some? && x != r.id
    ensures FrameAt(w, RunInsert(cfg, w, tid, r, f, io), x)
  {
    hide Busy, AfterReserve, Resume;
  }

  lemma ReservedThreadOk(cfg: Limits, w: World, tid: nat, r: Operation, f: Flow, io: WriteResult)
    requires w.mem.Some? && ThreadOk(w, Working(r, Reserve(f)))
    ensures var n := RunInsert(cfg, w, tid, r, f, io);
            var o := InsertOp(cfg.maxOperations, w.mem.value, w.disk, r, io);
            && r.id !in n.unsettled
            && (o.reply.Done? ==> ThreadOk(n, Working(r, AfterReserve(f, r))))
            && FinalOk(n, r.id)
  {
    ReservedOk(f, r);
    NotTerminal(Reserve(f), r, None);
    assert !AfterReserve(f, r).Finished?;
    hide Busy, AfterReserve, PcOk, EvictOps;
  }

  lemma InsertOk(cfg: Limits, w: World, tid: nat, r: Operation, f: Flow, io: WriteResult)
    requires CanRun(w, tid, r, Reserve(f))
    ensures Inv(RunInsert(cfg, w, tid, r, f, io))
  {
    var n := RunInsert(cfg, w, tid, r, f, io);
    OthersApart(w, tid, r, Reserve(f));
    assert ThreadOk(w, w.threads[tid]);
    InsertOpOk(cfg.maxOperations, w.mem.value, w.disk, r, io, w.used);
    ReservedThreadOk(cfg, w, tid, r, f, io);
    assert !AfterReserve(f, r).Finished?;
    hide StoreOk, PcOk, InsertOp, AfterReserve, ThreadOk, FinalOk, FrameAt;
    Assemble(w, n, tid, r.id) by {
      forall x | x != r.id ensures FrameAt(w, n, x) { InsertFrame(cfg, w, tid, r, f, io, x); }
    }
  }

  lemma ReadOk(w: World, tid: nat)
    requires Inv(w) && w.mem.Some? && tid in w.threads && w.threads[tid].Waiting?
    ensures Inv(RunRead(w, tid, w.threads[tid]))
  {
    var t := w.threads[tid];
    var n := RunRead(w, tid, t);
    assert UnsettledOk(w, t.id) && FinalOk(w, t.id);
    if tid in n.threads {
      forall s | s in w.threads && s != tid && w.threads[s].Working? ensures IdOf(w.threads[s]) != t.id {
        ReaderApart(w, tid, s);
      }
      assert t.id in w.mem.value && w.mem.value[t.id].id == t.id && t.id in w.used;
      assert PcOk(Inspect(t.work), w.mem.value[t.id], CallOn(w, t.id));
      hide StoreOk, PcOk;
      assert ThreadOk(n, n.threads[tid]);
      hide ThreadOk;
      Assemble(w, n, tid, t.id);
    } else {
      hide StoreOk, PcOk, UnsettledOk, FinalOk;
      LeaveOk(w, n, tid);
    }
  }

  lemma LeaveOk(w: World, n: World, tid: nat)
    requires Inv(w) && w.mem.Some? && n == w.(threads := w.threads - {tid})
    ensures Inv(n)
  {
    hide StoreOk, PcOk, UnsettledOk, FinalOk;
    forall s | s in n.threads ensures ThreadOk(n, n.threads[s]) {
      assert ThreadOk(w, w.threads[s]);
    }
    hide ThreadOk;
    SameRecords(w, n);
  }

  lemma ReaderApart(w: World, tid: nat, s: nat)
    requires Inv(w) && w.mem.Some? && tid in w.threads && w.threads[tid].Waiting?
    requires s in w.threads && s != tid && w.threads[s].Working?
    requires w.threads[tid].id in w.mem.value
    requires w.mem.value[w.threads[tid].id].device == w.threads[tid].device
    ensures IdOf(w.threads[s]) != w.threads[tid].id
  {
    assert ThreadOk(w, w.threads[s]);
    hide PcOk, StoreOk, UnsettledOk, FinalOk;
    assert DeviceOf(w.threads[s]) != DeviceOf(w.threads[tid]);
  }

  lemma SameRecords(w: World, n: World)
    requires Inv(w) && n.mem == w.mem && n.disk == w.disk && n.unsettled == w.unsettled
    ensures forall x :: UnsettledOk(n, x)
    ensures forall x :: FinalOk(n, x)
  {
    forall x ensures UnsettledOk(n, x) && FinalOk(n, x) {
      assert UnsettledOk(w, x) && FinalOk(w, x);
    }
  }

  /** Every thread step keeps the invariant. */
  lemma ThreadStepOk(cfg: Limits, w: World, tid: nat, a: Answer, io: WriteResult)
    requires Inv(w) && w.mem.Some? && tid in w.threads
    ensures Inv(RunThread(cfg, w, tid, a, io))
  {
    hide PcOk, StoreOk, UnsettledOk, FinalOk;
    match w.threads[tid]
    case Waiting(_, _, _, _) =>
      hide Inv, RunRead;
      ReadOk(w, tid);
    case Working(r, pc) =>
      assert !pc.Finished? by {
        assert ThreadOk(w, w.threads[tid]);
      }
      hide Inv, RunInsert, RunUpdate, RunRemove, RunLocal;
      match pc {
        case Reserve(f) => InsertOk(cfg, w, tid, r, f, io);
        case Writing(_, _, _, _) => UpdateOk(w, tid, r, pc, io);
        case Drop(_) => RemoveOk(w, tid, r, pc, io);
        case _ => LocalOk(w, tid, r, pc, Kept(cfg, a));
      }
  }

  // ---- the other steps --------------------------------------------------------

  lemma BeginOk(cfg: Limits, w: World, tid: nat, r: Operation, f: Flow)
    requires Inv(w)
    ensures Inv(Next(cfg, w, Begin(tid, r, f)))
  {
    hide PcOk;
    var n := Next(cfg, w, Begin(tid, r, f));
    if CanBegin(cfg, w, tid, r, f) {
      assert UnsettledOk(w, r.id);
      assert PcOk(Reserve(f), r, None) by { ReserveOk(f, r); }
      forall t | t in n.threads ensures ThreadOk(n, n.threads[t]) {
        if t != tid {
          assert ThreadOk(w, w.threads[t]);
        }
      }
      SameRecords(w, n);
    }
  }

  lemma ReserveOk(f: Flow, r: Operation)
    requires r.state.Staging?
    ensures PcOk(Reserve(f), r, None)
  {
  }

  lemma EnterOk(cfg: Limits, w: World, tid: nat, id: string, owner: string, device: string, work: Work)
    requires Inv(w)
    ensures Inv(Next(cfg, w, Enter(tid, id, owner, device, work)))
  {
    var n := Next(cfg, w, Enter(tid, id, owner, device, work));
    hide PcOk, StoreOk;
    SameRecords(w, n);
    if n.mem.Some? {
      forall t | t in n.threads ensures ThreadOk(n, n.threads[t]) {
        if t in w.threads {
          assert ThreadOk(w, w.threads[t]);
        }
      }
    }
  }

  lemma OtherPersistOk(cfg: Limits, w: World, io: WriteResult)
    requires Inv(w)
    ensures Inv(Next(cfg, w, OtherPersist(io)))
  {
    var n := Next(cfg, w, OtherPersist(io));
    if w.mem.Some? {
      hide PcOk, StoreOk;
      forall t | t in n.threads ensures ThreadOk(n, n.threads[t]) {
        assert ThreadOk(w, w.threads[t]);
        FrameThread(w, n, n.threads[t]);
      }
      forall x ensures UnsettledOk(n, x) && FinalOk(n, x) {
        assert UnsettledOk(w, x) && FinalOk(w, x);
        FrameRecord(w, n, x);
      }
    }
  }

  lemma CrashOk(cfg: Limits, w: World)
    requires Inv(w)
    ensures Inv(Next(cfg, w, Crash))
  {
    var n := Next(cfg, w, Crash);
    forall x ensures UnsettledOk(n, x) && FinalOk(n, x) {
      assert UnsettledOk(w, x);
    }
  }

  lemma RecoverStoreOk(m: Ops, policy: StagedRecovery, used: set<string>)
    requires StoreOk(m, used)
    ensures StoreOk(RecoverOps(m, policy), used)
  {
    forall id | id in m
      ensures SameSubject(m[id], RecoverOp(m[id], policy)) && Terminal(RecoverOp(m[id], policy)) == Terminal(m[id])
    {
      RecoverOpExact(m[id], policy);
    }
    hide RecoverOp;
  }

  lemma LoadOk(cfg: Limits, w: World, policy: StagedRecovery, io: WriteResult)
    requires Inv(w)
    ensures Inv(Next(cfg, w, Load(policy, io)))
  {
    if w.mem.None? {
      var n := Next(cfg, w, Load(policy, io));
      RecoverStoreOk(w.disk, policy, w.used);
      hide StoreOk;
      forall x ensures UnsettledOk(n, x) && FinalOk(n, x) {
        assert UnsettledOk(w, x);
      }
    }
  }

  lemma ResolvedOk(m: Ops, id: string, d: Disposition, used: set<string>)
    requires StoreOk(m, used) && id in m && !Terminal(m[id])
    ensures StoreOk(m[id := Resolved(m[id], d)], used)
  {
    var r := Resolved(m[id], d);
    assert SameSubject(m[id], r) && Terminal(r);
    hide Resolved;
  }

  lemma ResolveOk(cfg: Limits, w: World, id: string, d: Disposition, io: WriteResult)
    requires Inv(w)
    ensures Inv(Next(cfg, w, Resolve(id, d, io)))
  {
    var n := Next(cfg, w, Resolve(id, d, io));
    if n != w {
      ResolvedOk(w.disk, id, d, w.used);
    }
    hide StoreOk, Resolved, ThreadOk;
    forall x ensures UnsettledOk(n, x) && FinalOk(n, x) {
      assert UnsettledOk(w, x) && FinalOk(w, x);
    }
  }

  lemma StepKeepsInv(cfg: Limits, w: World, s: Step)
    requires Inv(w)
    ensures Inv(Next(cfg, w, s))
  {
    hide Inv;
    match s
    case Begin(tid, r, f) => BeginOk(cfg, w, tid, r, f);
    case Enter(tid, id, owner, device, work) => EnterOk(cfg, w, tid, id, owner, device, work);
    case Run(tid, a, io) =>
      if w.mem.Some? && tid in w.threads {
        ThreadStepOk(cfg, w, tid, a, io);
      }
    case OtherPersist(io) => OtherPersistOk(cfg, w, io);
    case Crash => CrashOk(cfg, w);
    case Load(policy, io) => LoadOk(cfg, w, policy, io);
    case Resolve(id, d, io) => ResolveOk(cfg, w, id, d, io);
  }

  /** A stopped server over any well-formed file. */
  ghost predicate Initial(w: World) {
    w.mem.None? && w.threads == map[] && w.unsettled == map[] && w.locks == {} && StoreOk(w.disk, w.used)
  }

  lemma {:induction false} Reachable(cfg: Limits, start: World, run: seq<Step>, k: nat)
    requires Initial(start) && k <= |run|
    ensures Inv(At(cfg, start, run, k))
  {
    if k == 0 {
    } else {
      Reachable(cfg, start, run, k - 1);
      hide Inv;
      StepKeepsInv(cfg, At(cfg, start, run, k - 1), run[k - 1]);
    }
  }
}
