/** Whether a device lock the coordinator took is always on record. It is, exactly when no flow in use
    is one that may drop its record without knowing that the device is unlocked. */
module OperationLocks {
  import opened Lifecycle
  import opened Text
  import opened Records
  import opened OperationStore
  import opened Recovery
  import opened OperationProtocol
  import opened OperationInvariant
  import opened OperationTheorems

  /** Every device lock that may be held is recorded as held, in memory and in the file. */
  predicate LockRecorded(w: World, id: string) {
    id in w.locks ==>
      && id in w.disk && w.disk[id].lockHeld && !Terminal(w.disk[id])
      && (w.mem.Some? ==> id in w.mem.value && w.mem.value[id].lockHeld && !Terminal(w.mem.value[id]))
  }

  ghost predicate LocksRecorded(w: World) {
    forall id {:trigger LockRecorded(w, id)} :: LockRecorded(w, id)
  }

  /** A flow that never drops its record while the device may be locked. An apply that took the
      configuration lock may fail to release it. Unless failed calls are clean, an apply whose stage
      call fails, and any flow whose lock call fails, cannot know that no lock is left. */
  predicate KeepsLocks(f: Flow, clean: bool) {
    if clean then !(f.apply && f.lock) else !f.apply && !f.lock
  }

  /** What a thread on such a flow knows about the device lock. */
  predicate LockPcOk(pc: Pc, locked: bool, clean: bool)
    decreases pc
  {
    match pc
    case Reserve(f) => !locked && KeepsLocks(f, clean)
    case Claim(f) => !locked && KeepsLocks(f, clean)
    case TakeLock(f) => KeepsLocks(f, clean) && f.lock
    case Locking(f) => KeepsLocks(f, clean) && f.lock
    case Check(f, mine) => KeepsLocks(f, clean) && (mine ==> !f.apply) && (locked ==> mine)
    case IssueStage(f, mine) => KeepsLocks(f, clean) && (mine ==> !f.apply)
    case InStage(f, mine) => KeepsLocks(f, clean) && (mine ==> !f.apply)
    case Unlock(f) => !f.apply
    case Drop(_) => !locked
    case AfterUnlock => !locked
    case Writing(n, _, saved, failed) =>
      && (locked ==> n.lockHeld && !Terminal(n))
      && LockPcOk(saved, locked, clean) && LockPcOk(failed, locked, clean)
    case _ => true
  }

  /** If the store admits nothing, a reservation goes nowhere, whatever its flow. */
  predicate LockThreadOk(t: Thread, locks: set<string>, cfg: Limits) {
    t.Working? ==>
      || LockPcOk(t.pc, IdOf(t) in locks, cfg.cleanFailures)
      || (cfg.maxOperations == 0 && t.pc.Reserve? && IdOf(t) !in locks)
  }

  ghost predicate LockInv(w: World, cfg: Limits) {
    && LocksRecorded(w)
    && (forall t :: t in w.threads ==> LockThreadOk(w.threads[t], w.locks, cfg))
  }

  // ---- one thread -----------------------------------------------------------------

  predicate LockedAfter(pc: Pc, a: Answer, locked: bool) {
    "" in LocksAfter(if locked then {""} else {}, pc, "", a)
  }

  lemma LocksAfterAt(locks: set<string>, pc: Pc, id: string, a: Answer)
    ensures id in LocksAfter(locks, pc, id, a) <==> LockedAfter(pc, a, id in locks)
  {
  }

  lemma LockAdvanceOk(pc: Pc, r: Operation, call: Option<Call>, a: Answer, locked: bool, clean: bool)
    requires IsLocal(pc) && PcOk(pc, r, call) && LockPcOk(pc, locked, clean) && (locked ==> r.lockHeld)
    requires clean ==> !a.lockLeft
    ensures LockPcOk(Advance(pc, r, a), LockedAfter(pc, a, locked), clean)
    ensures LockedAfter(pc, a, locked) && !locked ==> Marked(pc) && r.lockHeld
  {
    if IsStaging(pc) {
      LockStagingOk(pc, r, call, a, locked, clean);
    } else {
      LockWorkOk(pc, r, call, a, locked, clean);
    }
    hide PcOk, Advance, LockPcOk, LockedAfter;
  }

  lemma LockStagingOk(pc: Pc, r: Operation, call: Option<Call>, a: Answer, locked: bool, clean: bool)
    requires IsStaging(pc) && PcOk(pc, r, call) && LockPcOk(pc, locked, clean) && (locked ==> r.lockHeld)
    requires clean ==> !a.lockLeft
    ensures LockPcOk(Advance(pc, r, a), LockedAfter(pc, a, locked), clean)
    ensures LockedAfter(pc, a, locked) && !locked ==> Marked(pc) && r.lockHeld
  {
  }

  lemma LockWorkOk(pc: Pc, r: Operation, call: Option<Call>, a: Answer, locked: bool, clean: bool)
    requires IsLocal(pc) && !IsStaging(pc) && PcOk(pc, r, call) && LockPcOk(pc, locked, clean)
    requires locked ==> r.lockHeld
    ensures LockPcOk(Advance(pc, r, a), LockedAfter(pc, a, locked), clean)
    ensures LockedAfter(pc, a, locked) ==> locked
  {
    match pc
    case InCommit =>
      hide CommitResult, Settle, CommitReleases, LockPcOk;
      LockCommitOk(r, call, a, locked, clean);
    case InRollback =>
      hide AfterRollback, LockPcOk;
      LockRollbackOk(r, a, locked, clean);
    case Inspect(work) =>
      hide AfterInspect, LockPcOk;
      LockInspectOk(work, r, a, locked, clean);
    case _ =>
  }

  lemma LockInspectOk(work: Work, r: Operation, a: Answer, locked: bool, clean: bool)
    requires locked ==> r.lockHeld
    ensures LockPcOk(AfterInspect(work, r, a), locked, clean)
  {
  }

  lemma LockCommitOk(r: Operation, call: Option<Call>, a: Answer, locked: bool, clean: bool)
    requires PcOk(InCommit, r, call) && (locked ==> r.lockHeld)
    ensures LockPcOk(Settle(CommitResult(r, a.commit, a.text)), locked && !CommitReleases(a.commit), clean)
  {
  }

  lemma LockRollbackOk(r: Operation, a: Answer, locked: bool, clean: bool)
    requires locked ==> r.lockHeld
    ensures LockPcOk(AfterRollback(r, a), locked, clean)
  {
  }

  lemma LocalLocksOk(w: World, tid: nat, r: Operation, pc: Pc, a: Answer, cfg: Limits)
    requires CanRun(w, tid, r, pc) && IsLocal(pc) && LockInv(w, cfg) && (cfg.cleanFailures ==> !a.lockLeft)
    ensures LockInv(RunLocal(w, tid, r, pc, a), cfg)
  {
    var n := RunLocal(w, tid, r, pc, a);
    FitsNow(w, tid, r, pc);
    OthersApart(w, tid, r, pc);
    assert ThreadOk(w, w.threads[tid]) && LockRecorded(w, r.id);
    LockAdvanceOk(pc, r, CallOn(w, r.id), a, r.id in w.locks, cfg.cleanFailures);
    LocksAfterAt(w.locks, pc, r.id, a);
    hide Inv, PcOk, Advance, LocksAfter, LockPcOk, LockedAfter;
    LocalOwn(w, tid, r, pc, a);
    assert LockRecorded(n, r.id);
    Regroup(w, n, tid, r.id, cfg) by {
      forall x | x != r.id ensures FrameAt(w, n, x) { LocalFrame(w, tid, r, pc, a, x); }
    }
  }

  lemma FrameLock(w: World, n: World, x: string)
    requires w.mem.Some? && n.mem.Some? && FrameAt(w, n, x) && LockRecorded(w, x)
    ensures LockRecorded(n, x)
  {
  }

  lemma Regroup(w: World, n: World, tid: nat, id: string, cfg: Limits)
    requires w.mem.Some? && n.mem.Some? && LockInv(w, cfg) && tid in w.threads && IdOf(w.threads[tid]) == id
    requires OwnStep(w, n, tid)
    requires forall t :: t in w.threads && t != tid && w.threads[t].Working? ==> IdOf(w.threads[t]) != id
    requires forall x :: x != id ==> FrameAt(w, n, x)
    requires tid in n.threads ==> LockPcOk(n.threads[tid].pc, id in n.locks, cfg.cleanFailures)
    requires LockRecorded(n, id)
    ensures LockInv(n, cfg)
  {
    hide LockPcOk, LockRecorded;
    forall x ensures LockRecorded(n, x) {
      if x != id {
        assert LockRecorded(w, x);
        FrameLock(w, n, x);
      }
    }
    forall t | t in n.threads ensures LockThreadOk(n.threads[t], n.locks, cfg) {
      if t != tid && n.threads[t].Working? {
        assert LockThreadOk(w.threads[t], w.locks, cfg);
        assert FrameAt(w, n, IdOf(n.threads[t]));
      }
    }
  }

  lemma UpdateLocksOk(w: World, tid: nat, r: Operation, pc: Pc, io: WriteResult, cfg: Limits)
    requires CanRun(w, tid, r, pc) && pc.Writing? && LockInv(w, cfg)
    ensures LockInv(RunUpdate(w, tid, r, pc, io), cfg)
  {
    var n := RunUpdate(w, tid, r, pc, io);
    FitsNow(w, tid, r, pc);
    OthersApart(w, tid, r, pc);
    assert ThreadOk(w, w.threads[tid]) && LockRecorded(w, r.id);
    assert pc.next.id == r.id;
    var locked := r.id in w.locks;
    assert LockPcOk(pc, locked, cfg.cleanFailures);
    assert (locked ==> pc.next.lockHeld && !Terminal(pc.next))
           && LockPcOk(pc.onSaved, locked, cfg.cleanFailures) && LockPcOk(pc.onFailed, locked, cfg.cleanFailures);
    hide Inv, PcOk, LockPcOk;
    UpdateOwn(w, tid, r, pc, io);
    assert LockRecorded(n, r.id);
    Regroup(w, n, tid, r.id, cfg) by {
      forall x | x != r.id ensures FrameAt(w, n, x) { UpdateFrame(w, tid, r, pc, io, x); }
    }
  }

  lemma RemoveLocksOk(w: World, tid: nat, r: Operation, pc: Pc, io: WriteResult, cfg: Limits)
    requires CanRun(w, tid, r, pc) && pc.Drop? && LockInv(w, cfg)
    ensures LockInv(RunRemove(w, tid, r, io), cfg)
  {
    var n := RunRemove(w, tid, r, io);
    OthersApart(w, tid, r, pc);
    assert r.id !in w.locks;
    hide Inv, LockPcOk;
    forall x | x != r.id ensures FrameAt(w, n, x) && OwnStep(w, n, tid) { RemoveFrame(w, tid, r, io, x); }
    assert OwnStep(w, n, tid);
    Regroup(w, n, tid, r.id, cfg);
  }

  lemma InsertLocksOk(cfg: Limits, w: World, tid: nat, r: Operation, f: Flow, io: WriteResult)
    requires CanRun(w, tid, r, Reserve(f)) && LockInv(w, cfg)
    ensures LockInv(RunInsert(cfg, w, tid, r, f, io), cfg)
  {
    var n := RunInsert(cfg, w, tid, r, f, io);
    OthersApart(w, tid, r, Reserve(f));
    assert LockThreadOk(w.threads[tid], w.locks, cfg);
    if tid in n.threads {
      assert cfg.maxOperations > 0 by { hide Inv, Busy, LockInv; }
      assert LockPcOk(AfterReserve(f, r), false, cfg.cleanFailures);
    }
    hide Inv, LockPcOk, InsertOp, AfterReserve;
    InsertOwn(cfg, w, tid, r, f, io);
    Regroup(w, n, tid, r.id, cfg) by {
      forall x | x != r.id ensures FrameAt(w, n, x) { InsertFrame(cfg, w, tid, r, f, io, x); }
    }
  }

  lemma ReadLocksOk(w: World, tid: nat, cfg: Limits)
    requires LockInv(w, cfg) && w.mem.Some? && tid in w.threads && w.threads[tid].Waiting?
    ensures LockInv(RunRead(w, tid, w.threads[tid]), cfg)
  {
    var n := RunRead(w, tid, w.threads[tid]);
    forall x ensures LockRecorded(n, x) {
      assert LockRecorded(w, x);
    }
  }

  lemma KeptIsClean(cfg: Limits, a: Answer)
    ensures cfg.cleanFailures ==> !Kept(cfg, a).lockLeft
  {
  }

  lemma ThreadLocksOk(cfg: Limits, w: World, tid: nat, a: Answer, io: WriteResult)
    requires Inv(w) && LockInv(w, cfg) && w.mem.Some? && tid in w.threads
    ensures LockInv(RunThread(cfg, w, tid, a, io), cfg)
  {
    hide PcOk, StoreOk, UnsettledOk, FinalOk, Kept;
    match w.threads[tid]
    case Waiting(_, _, _, _) =>
      hide Inv, LockInv, RunRead;
      ReadLocksOk(w, tid, cfg);
    case Working(r, pc) =>
      assert !pc.Finished? by {
        assert ThreadOk(w, w.threads[tid]);
      }
      hide Inv, LockInv, RunInsert, RunUpdate, RunRemove, RunLocal;
      match pc {
        case Reserve(f) => InsertLocksOk(cfg, w, tid, r, f, io);
        case Writing(_, _, _, _) => UpdateLocksOk(w, tid, r, pc, io, cfg);
        case Drop(_) => RemoveLocksOk(w, tid, r, pc, io, cfg);
        case _ =>
          KeptIsClean(cfg, a);
          LocalLocksOk(w, tid, r, pc, Kept(cfg, a), cfg);
      }
  }

  // ---- every step -------------------------------------------------------------------

  /** Nothing is admitted, or every flow in use keeps its locks. */
  predicate LocksKept(cfg: Limits) {
    cfg.maxOperations == 0 || forall f :: f in cfg.flows ==> KeepsLocks(f, cfg.cleanFailures)
  }

  lemma StepKeepsLocks(cfg: Limits, w: World, s: Step)
    requires Inv(w) && LockInv(w, cfg) && LocksKept(cfg)
    ensures LockInv(Next(cfg, w, s), cfg)
  {
    var n := Next(cfg, w, s);
    match s
    case Run(tid, a, io) =>
      if w.mem.Some? && tid in w.threads {
        hide Inv, LockInv;
        ThreadLocksOk(cfg, w, tid, a, io);
      }
    case Begin(tid, r, f) =>
      assert n != w ==> r.id !in w.locks by {
        assert LockRecorded(w, r.id);
      }
      QuietStep(w, n, cfg);
    case Enter(_, _, _, _, _) => QuietStep(w, n, cfg);
    case Load(policy, _) =>
      hide LockPcOk;
      forall x ensures LockRecorded(n, x) {
        assert LockRecorded(w, x);
        if w.mem.None? && x in w.disk {
          RecoverOpExact(w.disk[x], policy);
          hide RecoverOp;
        }
      }
    case _ =>
      hide LockPcOk;
      forall x ensures LockRecorded(n, x) {
        assert LockRecorded(w, x);
      }
  }

  lemma QuietStep(w: World, n: World, cfg: Limits)
    requires LockInv(w, cfg) && n.mem == w.mem && n.disk == w.disk && n.locks == w.locks
    ensures LocksRecorded(n)
  {
    forall x ensures LockRecorded(n, x) {
      assert LockRecorded(w, x);
    }
  }

  lemma {:induction false} LocksRecordedInEveryRun(cfg: Limits, start: World, run: seq<Step>, k: nat)
    requires Initial(start) && k <= |run| && LocksKept(cfg)
    ensures LockInv(At(cfg, start, run, k), cfg)
  {
    if k > 0 {
      LocksRecordedInEveryRun(cfg, start, run, k - 1);
      Reachable(cfg, start, run, k - 1);
      hide Inv, LockInv;
      StepKeepsLocks(cfg, At(cfg, start, run, k - 1), run[k - 1]);
    }
  }

  // ---- the other direction ------------------------------------------------------------

  const NOTHING := World(None, map[], map[], {}, map[], {})

  const NEW_RECORD :=
    Operation("id", "o", "d", "e", Some("c"), "fp", Staging, None, None, false, "p", None, None)

  /** Answers of a device that leaves locks behind and cannot unlock. */
  function Said(ok: bool): Answer {
    Answer(ok, false, true, None, "", CommitAnswer.Unknown, Unclear, Unsupported)
  }

  const MARKED := NEW_RECORD.(lockHeld := true)

  /** Where a thread on flow `f` is, step by step, from its reservation to the dropped record. With both,
      the apply takes the lock, finds that the candidate has moved, and asks for an unlock the device
      does not support; else its lock or stage call fails and leaves the lock. */
  function Losing(f: Flow): seq<Pc> {
    var marking := Writing(MARKED, false, if f.lock then TakeLock(f) else Check(f, false), Drop(f));
    if f.apply && f.lock then
      [Reserve(f), Claim(f), marking, TakeLock(f), Locking(f), Check(f, true), Unlock(f), Drop(f)]
    else if f.lock then [Reserve(f), marking, TakeLock(f), Locking(f), Drop(f)]
    else [Reserve(f), Claim(f), marking, Check(f, false), IssueStage(f, false), InStage(f, false), Drop(f)]
  }

  /** What the thread is told at each of those points. */
  predicate Agreed(pc: Pc) {
    pc.Claim? || (pc.Locking? && pc.flow.apply) || (pc.Check? && !pc.flow.lock)
  }

  function LosingRun(f: Flow): seq<Step> {
    [Load(Discard, Durable), Begin(0, NEW_RECORD, f)]
    + seq(|Losing(f)|, k requires 0 <= k < |Losing(f)| => Run(0, Said(Agreed(Losing(f)[k])), Durable))
  }

  /** The record after `k` steps: the lock risk is marked once that write is behind. */
  function RecordAt(f: Flow, k: nat): Operation {
    if k > if f.apply then 4 else 3 then MARKED else NEW_RECORD
  }

  /** The world after `k` steps of that run. */
  function LosingWorld(f: Flow, k: nat): World {
    var n := |Losing(f)|;
    var mark := if f.apply then 2 else 1;
    var r := RecordAt(f, k);
    var ops := if 3 <= k < n + 2 then map["id" := r] else map[];
    var locking := if f.lock then mark + 1 else 4;
    World(if k == 0 then None else Some(ops), ops,
          if 2 <= k < n + 2 then map[0 := Working(r, Losing(f)[k - 2])] else map[],
          if k < 2 then {} else {"id"},
          if !f.lock && 6 < k < n + 2 then map["id" := Unsettled(StageCall, None)] else map[],
          if k > locking + 2 then {"id"} else {})
  }

  lemma LosingStart(cfg: Limits, f: Flow, k: nat)
    requires f in cfg.flows && (f.apply || f.lock) && cfg.maxOperations > 0 && k < 3
    ensures Next(cfg, LosingWorld(f, k), LosingRun(f)[k]) == LosingWorld(f, k + 1)
  {
    var r := NEW_RECORD;
    if k == 2 {
      var none: Ops := map[];
      assert InsertOp(cfg.maxOperations, none, none, r, Durable)
          == OpOutcome(none[r.id := r], none[r.id := r], Done) by {
        assert EvictOps(none, cfg.maxOperations) == none;
      }
      hide InsertOp;
    }
  }

  /** The reservation is marked as possibly locked. */
  lemma LosingMark(cfg: Limits, f: Flow, k: nat)
    requires (f.apply || f.lock) && k == if f.apply then 4 else 3
    ensures Next(cfg, LosingWorld(f, k), LosingRun(f)[k]) == LosingWorld(f, k + 1)
  {
    assert map["id" := NEW_RECORD]["id" := MARKED] == map["id" := MARKED];
  }

  /** The record is dropped. */
  lemma LosingEnd(cfg: Limits, f: Flow)
    requires f.apply || f.lock
    ensures var k := |Losing(f)| + 1;
            Next(cfg, LosingWorld(f, k), LosingRun(f)[k]) == LosingWorld(f, k + 1)
  {
    assert map["id" := MARKED] - {"id"} == map[];
    assert map["id" := Unsettled(StageCall, None)] - {"id"} == map[];
  }

  lemma LocalStep(cfg: Limits, w: World, r: Operation, pc: Pc, a: Answer)
    requires w.mem.Some? && w.threads == map[0 := Working(r, pc)] && IsLocal(pc)
    requires !Advance(pc, r, Kept(cfg, a)).Finished?
    ensures Next(cfg, w, Run(0, a, Durable))
         == w.(threads := map[0 := Working(r, Advance(pc, r, Kept(cfg, a)))],
               unsettled := if Issues(pc).None? then w.unsettled
                            else w.unsettled[r.id := Unsettled(Issues(pc).value, None)],
               locks := LocksAfter(w.locks, pc, r.id, Kept(cfg, a)))
  {
    hide Advance, LocksAfter, Issues;
    assert map[0 := Working(r, pc)][0 := Working(r, Advance(pc, r, Kept(cfg, a)))]
        == map[0 := Working(r, Advance(pc, r, Kept(cfg, a)))];
  }

  /** Between two points of the run only the thread, the lock and the call that is out differ. */
  lemma LosingWorlds(f: Flow, k: nat)
    requires (f.apply || f.lock) && 3 <= k < |Losing(f)| + 1 && !Losing(f)[k - 2].Writing?
    ensures var w, n := LosingWorld(f, k), LosingWorld(f, k + 1);
            && w.mem.Some? && w.threads == map[0 := Working(RecordAt(f, k), Losing(f)[k - 2])]
            && n == w.(threads := map[0 := Working(RecordAt(f, k), Losing(f)[k - 1])], locks := n.locks,
                       unsettled := if Losing(f)[k - 2].IssueStage? then map["id" := Unsettled(StageCall, None)]
                                    else w.unsettled)
            && (Losing(f)[k - 2].IssueStage? ==> w.unsettled == map[])
  {
    if f.apply && f.lock {
    } else if f.lock {
    } else {
    }
  }

  /** A device call or a check. */
  lemma LosingMiddle(cfg: Limits, f: Flow, k: nat)
    requires !KeepsLocks(f, cfg.cleanFailures) && 3 <= k < |Losing(f)| + 1 && !Losing(f)[k - 2].Writing?
    ensures Next(cfg, LosingWorld(f, k), LosingRun(f)[k]) == LosingWorld(f, k + 1)
  {
    var pc := Losing(f)[k - 2];
    assert LosingRun(f)[k] == Run(0, Said(Agreed(pc)), Durable) && IsLocal(pc) && !Losing(f)[k - 1].Finished?;
    hide Next, Advance, LocksAfter, Losing, LosingRun, LosingWorld, Agreed, IsLocal, Kept, Issues;
    LosingAdvance(cfg, f, k - 2);
    LosingWorlds(f, k);
    LocalStep(cfg, LosingWorld(f, k), RecordAt(f, k), pc, Said(Agreed(pc)));
  }

  lemma LosingAdvance(cfg: Limits, f: Flow, i: nat)
    requires !KeepsLocks(f, cfg.cleanFailures) && i + 1 < |Losing(f)| && IsLocal(Losing(f)[i])
    ensures var pc := Losing(f)[i];
            var a := Kept(cfg, Said(Agreed(pc)));
            && Advance(pc, RecordAt(f, i + 2), a) == Losing(f)[i + 1]
            && LocksAfter(LosingWorld(f, i + 2).locks, pc, "id", a) == LosingWorld(f, i + 3).locks
            && Issues(pc) == if pc.IssueStage? then Some(StageCall) else None
  {
    if f.apply && f.lock {
    } else if f.lock {
    } else {
    }
  }

  lemma {:induction false} LosingAt(cfg: Limits, f: Flow, k: nat)
    requires f in cfg.flows && !KeepsLocks(f, cfg.cleanFailures) && cfg.maxOperations > 0 && k <= |LosingRun(f)|
    ensures At(cfg, NOTHING, LosingRun(f), k) == LosingWorld(f, k)
  {
    hide Next, LosingWorld;
    if k == 0 {
      assert LosingWorld(f, 0) == NOTHING by { StartsFromNothing(f); }
    } else {
      LosingAt(cfg, f, k - 1);
      if k <= 3 {
        LosingStart(cfg, f, k - 1);
      } else if k - 1 == if f.apply then 4 else 3 {
        LosingMark(cfg, f, k - 1);
      } else if k == |LosingRun(f)| {
        LosingEnd(cfg, f);
      } else {
        LosingMiddle(cfg, f, k - 1);
      }
    }
  }

  lemma StartsFromNothing(f: Flow)
    ensures LosingWorld(f, 0) == NOTHING
  {
  }

  /** Every lock that may be held on a device is on record in every reachable state if and only if
      every flow in use keeps its locks (or no operation can be admitted at all). */
  lemma {:induction false} LocksRecordedIff(cfg: Limits)
    ensures (forall start, run, k: nat {:trigger At(cfg, start, run, k)} ::
               Initial(start) && k <= |run| ==> LocksRecorded(At(cfg, start, run, k)))
            <==> LocksKept(cfg)
  {
    if !LocksKept(cfg) {
      var f :| f in cfg.flows && !KeepsLocks(f, cfg.cleanFailures);
      var n := |LosingRun(f)|;
      LosingAt(cfg, f, n);
      assert Initial(NOTHING);
      assert !LockRecorded(At(cfg, NOTHING, LosingRun(f), n), "id");
    } else {
      forall start, run, k: nat | Initial(start) && k <= |run| ensures LocksRecorded(At(cfg, start, run, k)) {
        LocksRecordedInEveryRun(cfg, start, run, k);
      }
    }
  }
}
