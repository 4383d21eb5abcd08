/** What whole runs of the change-set protocol guarantee. */
module ChangeSetTheorems {
  import opened Lifecycle
  import opened Text
  import opened Records
  import opened WriteGate
  import opened ChangeSetStore
  import opened ChangeSetProtocol

  // ---- an approval is spent once ------------------------------------------

  predicate ClaimSucceeds(cfg: Config, w: World, s: Step, id: string) {
    s.ClaimStep? && s.id == id && ReplyTo(cfg, w, s).Done?
  }

  /** An insert of `id` at a moment when the running server does not hold it. */
  predicate Reinserts(w: World, s: Step, id: string) {
    s.InsertStep? && s.record.id == id && w.mem.Some? && id !in w.mem.value
  }

  /** Wherever the record still exists, in memory or on disk, it is past `Approved`. */
  ghost predicate Spent(w: World, id: string) {
    && (id in w.disk ==> Rank(w.disk[id].state) >= SPENT_RANK)
    && (w.mem.Some? && id in w.mem.value ==> Rank(w.mem.value[id].state) >= SPENT_RANK)
  }

  /** Whatever a step leaves in the file under `id` was already there, or is memory's record
      moved forward. */
  ghost predicate FileFollows(m: Sets, disk: Sets, after: Sets, id: string) {
    id in after ==>
      || (id in disk && after[id] == disk[id])
      || (id in m && Rank(m[id].state) <= Rank(after[id].state))
  }

  lemma SweepRaises(m: Sets, now: nat, max: nat, id: string)
    requires id in Evict(Sweep(m, now), max)
    ensures id in m && Rank(m[id].state) <= Rank(Evict(Sweep(m, now), max)[id].state)
  {
    hide WaiverLapsed;
  }

  lemma InsertFileFollows(cfg: Config, m: Sets, disk: Sets, r: ChangeSet, now: nat,
                          sweepIo: WriteResult, io: WriteResult, id: string)
    requires id != r.id || id in m
    ensures FileFollows(m, disk, Insert(cfg, m, disk, r, now, sweepIo, io).disk, id)
  {
    hide Sweep, Evict, Screen, Blocked, NormaliseTask, NormaliseMarker, Rank;
    NormaliseKeepsId(r);
    var swept := Evict(Sweep(m, now), cfg.maxChangeSets);
    if id in swept {
      SweepRaises(m, now, cfg.maxChangeSets, id);
    }
  }

  lemma NormaliseKeepsId(r: ChangeSet)
    ensures Normalise(r).id == r.id && Normalise(r).state == r.state
  {
  }

  lemma UpdateFileFollows(cfg: Config, m: Sets, disk: Sets, r: ChangeSet, io: WriteResult, id: string)
    ensures FileFollows(m, disk, Update(cfg, m, disk, r, io).disk, id)
  {
    var next := Normalise(r);
    if CheckWrite(cfg, Lookup(m, next.id), next, ByUpdate).Done? {
      UpdateKeepsEvidence(cfg, m[next.id], r);
    }
  }

  lemma ActFileFollows(cfg: Config, m: Sets, disk: Sets, s: Step, id: string)
    requires !s.Crash? && !s.Load?
    requires s.InsertStep? && s.record.id == id ==> id in m
    ensures FileFollows(m, disk, Act(cfg, m, disk, s).disk, id)
  {
    hide Insert, Update;
    match s
    case InsertStep(r, now, sweepIo, io) => InsertFileFollows(cfg, m, disk, r, now, sweepIo, io, id);
    case ClaimStep(_, _, _, _) =>
    case UpdateFromStep(_, r, io) => UpdateFileFollows(cfg, m, disk, r, io, id);
    case UpdateStep(r, io) => UpdateFileFollows(cfg, m, disk, r, io, id);
    case OtherPersist(_) =>
  }

  /** Only an insert brings a record into memory. */
  lemma ActAddsOnlyInserted(cfg: Config, m: Sets, disk: Sets, s: Step, id: string)
    requires !s.Crash? && !s.Load? && id !in m && id in Act(cfg, m, disk, s).mem
    ensures s.InsertStep? && s.record.id == id
  {
    hide Due, Screen, Blocked, RecordOk;
    match s
    case InsertStep(r, _, _, _) => NormaliseKeepsId(r);
    case ClaimStep(_, _, _, _) =>
    case UpdateFromStep(_, _, _) =>
    case UpdateStep(_, _) =>
    case OtherPersist(_) =>
  }

  lemma SpentStays(cfg: Config, w: World, s: Step, id: string)
    requires Inv(cfg, w) && Spent(w, id) && !Reinserts(w, s, id)
    ensures Spent(Next(cfg, w, s), id)
  {
    hide StoreOk, RecordOk, Carries, Act;
    if s.Load? {
      RecoverOk(cfg, w.disk);
    } else if !s.Crash? && w.mem.Some? {
      var m := w.mem.value;
      ActOk(cfg, m, w.disk, s);
      ActFileFollows(cfg, m, w.disk, s, id);
      if id !in m && id in Act(cfg, m, w.disk, s).mem {
        ActAddsOnlyInserted(cfg, m, w.disk, s, id);
      }
    }
  }

  /** A successful claim needs `Approved`, and leaves the record spent in memory and on disk. */
  lemma ClaimSpends(cfg: Config, w: World, s: Step, id: string)
    requires ClaimSucceeds(cfg, w, s, id)
    ensures Spent(Next(cfg, w, s), id) && !Spent(w, id)
  {
  }

  /** An insert of `id`, which the running server does not hold, that puts it into memory or into the
      file where it was spent or gone before. */
  ghost predicate Revives(cfg: Config, w: World, s: Step, id: string) {
    Reinserts(w, s, id) && Spent(w, id) && !Spent(Next(cfg, w, s), id)
  }

  lemma {:induction false} SpentUntilReinserted(cfg: Config, start: World, run: seq<Step>, id: string, i: nat, j: nat)
    requires Inv(cfg, start) && i < j <= |run|
    requires ClaimSucceeds(cfg, At(cfg, start, run, i), run[i], id)
    requires forall k :: i < k < j ==> !Revives(cfg, At(cfg, start, run, k), run[k], id)
    ensures Spent(At(cfg, start, run, j), id)
    decreases j
  {
    hide Inv, Next, Spent, ClaimSucceeds, Reinserts;
    assert At(cfg, start, run, j) == Next(cfg, At(cfg, start, run, j - 1), run[j - 1]);
    if j == i + 1 {
      ClaimSpends(cfg, At(cfg, start, run, i), run[i], id);
    } else {
      SpentUntilReinserted(cfg, start, run, id, i, j - 1);
      EveryReachableStoreIsOk(cfg, start, run, j - 1);
      if !Reinserts(At(cfg, start, run, j - 1), run[j - 1], id) {
        SpentStays(cfg, At(cfg, start, run, j - 1), run[j - 1], id);
      }
    }
  }

  /** One approval, one execution: between two successful claims of the same id, the id was
      inserted afresh, at a moment the server no longer held it, and the insert took. */
  lemma ApprovalSpentOnce(cfg: Config, start: World, run: seq<Step>, id: string, i: nat, j: nat)
    requires Inv(cfg, start) && i < j < |run|
    requires ClaimSucceeds(cfg, At(cfg, start, run, i), run[i], id)
    requires ClaimSucceeds(cfg, At(cfg, start, run, j), run[j], id)
    ensures exists k :: i < k < j && Revives(cfg, At(cfg, start, run, k), run[k], id)
  {
    hide Inv, Next, Spent, ClaimSucceeds, Revives;
    if forall k :: i < k < j ==> !Revives(cfg, At(cfg, start, run, k), run[k], id) {
      SpentUntilReinserted(cfg, start, run, id, i, j);
      ClaimSpends(cfg, At(cfg, start, run, j), run[j], id);
    }
  }

  // ---- two-person evidence is stable --------------------------------------

  lemma StepCarries(cfg: Config, w: World, s: Step, id: string)
    requires Inv(cfg, w) && id in View(w) && id in View(Next(cfg, w, s))
    ensures Carries(View(w)[id], View(Next(cfg, w, s))[id])
  {
    hide StoreOk, RecordOk, Act;
    if s.Load? {
      RecoverOk(cfg, w.disk);
    } else if !s.Crash? && w.mem.Some? {
      ActOk(cfg, w.mem.value, w.disk, s);
    }
  }

  /** For as long as a record exists, its owner, device and plan digest are those it was created
      with, and a genuine approval, with the preview digest it covers, never changes; this
      survives crashes, so no sequence of writes downgrades it. */
  lemma {:induction false} EvidenceIsStable(cfg: Config, start: World, run: seq<Step>, id: string, i: nat, j: nat)
    requires Inv(cfg, start) && i <= j <= |run|
    requires forall k :: i <= k <= j ==> id in View(At(cfg, start, run, k))
    ensures Carries(View(At(cfg, start, run, i))[id], View(At(cfg, start, run, j))[id])
    decreases j
  {
    hide Inv, Next;
    if i < j {
      EvidenceIsStable(cfg, start, run, id, i, j - 1);
      EveryReachableStoreIsOk(cfg, start, run, j - 1);
      assert id in View(At(cfg, start, run, j - 1)) && id in View(At(cfg, start, run, j));
      assert At(cfg, start, run, j) == Next(cfg, At(cfg, start, run, j - 1), run[j - 1]);
      StepCarries(cfg, At(cfg, start, run, j - 1), run[j - 1], id);
    }
  }

  /** The signature check a reload performs, for any rule that covers the bound fields. */
  predicate Verifies(sign: (string, string, Option<string>, string, string, nat) -> string, r: ChangeSet) {
    Genuine(r) ==>
      r.approval.value.digest
      == sign(r.id, r.digest, PreviewDigestOf(r), r.owner, r.approval.value.approver.value, r.approval.value.approvedAt)
  }

  /** An approval that binds the preview and verifies when granted verifies at every later
      reload, until the record is evicted. */
  lemma ApprovalVerifiesUntilEviction(
    cfg: Config, start: World, run: seq<Step>, id: string, i: nat, j: nat,
    sign: (string, string, Option<string>, string, string, nat) -> string)
    requires Inv(cfg, start) && i <= j <= |run|
    requires forall k :: i <= k <= j ==> id in View(At(cfg, start, run, k))
    requires BindsPreview(View(At(cfg, start, run, i))[id])
    requires Verifies(sign, View(At(cfg, start, run, i))[id])
    ensures Verifies(sign, View(At(cfg, start, run, j))[id]) && BindsPreview(View(At(cfg, start, run, j))[id])
    ensures !SelfApproved(View(At(cfg, start, run, j))[id])
  {
    EvidenceIsStable(cfg, start, run, id, i, j);
    EveryReachableStoreIsOk(cfg, start, run, i);
    EveryReachableStoreIsOk(cfg, start, run, j);
    hide At, Next;
  }

  // ---- a handleless apply stays in flight ---------------------------------

  predicate HandlelessIn(m: Sets, id: string, owner: string, device: string) {
    id in m && m[id].state.Applying? && m[id].applyWithoutHandle && m[id].owner == owner && m[id].device == device
  }

  /** In flight with no vendor handle, wherever the record is kept. */
  predicate Handleless(w: World, id: string, owner: string, device: string) {
    && HandlelessIn(w.disk, id, owner, device)
    && (w.mem.Some? ==> HandlelessIn(w.mem.value, id, owner, device))
  }

  /** A write of an explicit outcome for `id`. */
  predicate SettlesStep(s: Step, id: string) {
    (s.UpdateStep? || s.UpdateFromStep?) && s.record.id == id && !s.record.state.Applying?
  }

  /** Neither the sweep, the eviction nor their undoing touches an apply in flight. */
  lemma SweepSparesInFlight(m: Sets, now: nat, max: nat, id: string)
    requires id in m && m[id].state.Applying?
    ensures id in Evict(Sweep(m, now), max) && Evict(Sweep(m, now), max)[id] == m[id]
    ensures id in UndoSweep(m, now, max) && UndoSweep(m, now, max)[id] == m[id]
  {
    hide WaiverLapsed;
  }

  lemma InsertKeepsHandleless(cfg: Config, m: Sets, disk: Sets, r: ChangeSet, now: nat,
                              sweepIo: WriteResult, io: WriteResult, id: string, owner: string, device: string)
    requires HandlelessIn(m, id, owner, device) && HandlelessIn(disk, id, owner, device)
    ensures var o := Insert(cfg, m, disk, r, now, sweepIo, io);
            && HandlelessIn(o.mem, id, owner, device) && HandlelessIn(o.disk, id, owner, device)
            && (r.owner == owner && r.device == device ==> o.reply.Refused?)
  {
    hide Sweep, Evict, UndoSweep, Screen, NormaliseTask, NormaliseMarker;
    NormaliseKeepsId(r);
    SweepSparesInFlight(m, now, cfg.maxChangeSets, id);
  }

  lemma UpdateKeepsHandleless(cfg: Config, m: Sets, disk: Sets, r: ChangeSet, io: WriteResult,
                              id: string, owner: string, device: string)
    requires HandlelessIn(m, id, owner, device) && HandlelessIn(disk, id, owner, device)
    requires r.id == id ==> r.state.Applying?
    ensures var o := Update(cfg, m, disk, r, io);
            HandlelessIn(o.mem, id, owner, device) && HandlelessIn(o.disk, id, owner, device)
  {
    var next := Normalise(r);
    NormaliseKeepsId(r);
    if CheckWrite(cfg, Lookup(m, next.id), next, ByUpdate).Done? {
      UpdateKeepsEvidence(cfg, m[next.id], r);
    }
    hide CheckWrite, RecordOk;
  }

  lemma HandlelessStays(cfg: Config, w: World, s: Step, id: string, owner: string, device: string)
    requires Handleless(w, id, owner, device) && !SettlesStep(s, id)
    ensures Handleless(Next(cfg, w, s), id, owner, device)
    ensures s.InsertStep? && s.record.owner == owner && s.record.device == device ==> !ReplyTo(cfg, w, s).Done?
  {
    hide Insert, Update, CheckWrite;
    if s.Load? || s.Crash? || w.mem.None? {
      hide Act;
    } else {
      var m := w.mem.value;
      match s
      case InsertStep(r, now, sweepIo, io) =>
        InsertKeepsHandleless(cfg, m, w.disk, r, now, sweepIo, io, id, owner, device);
      case ClaimStep(_, _, _, _) =>
      case UpdateFromStep(_, r, io) => UpdateKeepsHandleless(cfg, m, w.disk, r, io, id, owner, device);
      case UpdateStep(r, io) => UpdateKeepsHandleless(cfg, m, w.disk, r, io, id, owner, device);
      case OtherPersist(_) =>
    }
  }

  /** A change set claimed with no handle stays `Applying` through any number of restarts,
      failed persists and other calls, until someone writes an outcome for it, and meanwhile
      every insert for its owner and device is refused. */
  lemma {:induction false} HandlelessApplyKeepsItsSlot(cfg: Config, start: World, run: seq<Step>, i: nat, j: nat)
    requires Inv(cfg, start) && i < j <= |run|
    requires run[i].ClaimStep? && run[i].handle.NoHandle? && ReplyTo(cfg, At(cfg, start, run, i), run[i]).Done?
    requires forall k :: i < k < j ==> !SettlesStep(run[k], run[i].id)
    ensures var r := View(At(cfg, start, run, i))[run[i].id];
            && Handleless(At(cfg, start, run, j), run[i].id, r.owner, r.device)
            && (j < |run| && run[j].InsertStep? && run[j].record.owner == r.owner && run[j].record.device == r.device
                ==> !ReplyTo(cfg, At(cfg, start, run, j), run[j]).Done?)
    decreases j
  {
    var w := At(cfg, start, run, i);
    var id := run[i].id;
    var r := View(w)[id];
    if j == i + 1 {
      ClaimLeavesHandleless(cfg, w, run[i]);
    } else {
      hide Next, ReplyTo, Handleless, SettlesStep, Inv, View;
      HandlelessApplyKeepsItsSlot(cfg, start, run, i, j - 1);
      HandlelessStays(cfg, At(cfg, start, run, j - 1), run[j - 1], id, r.owner, r.device);
    }
    hide Next, Inv, View, Handleless;
    if j < |run| && run[j].InsertStep? {
      HandlelessStays(cfg, At(cfg, start, run, j), run[j], id, r.owner, r.device);
    }
  }

  lemma ClaimLeavesHandleless(cfg: Config, w: World, s: Step)
    requires s.ClaimStep? && s.handle.NoHandle? && ReplyTo(cfg, w, s).Done?
    ensures s.id in View(w) && Handleless(Next(cfg, w, s), s.id, View(w)[s.id].owner, View(w)[s.id].device)
  {
  }

  // ---- what a claim does, and one that never started ------------------------

  /** A claim goes through exactly for an approved change set of that device, durably written; then it
      is in flight, marked as having no handle exactly if none is expected, and otherwise as it was. If
      only the write fails, memory keeps the claim. */
  lemma ClaimIsExact(cfg: Config, w: World, s: Step)
    requires s.ClaimStep? && w.mem.Some?
    ensures var m := w.mem.value;
            var n := Next(cfg, w, s);
            var may := ValidId(s.id) && s.id in m && m[s.id].device == s.device && m[s.id].state.Approved?;
            && n.mem.Some? && (ReplyTo(cfg, w, s).Done? <==> may && s.io.Durable?)
            && (!may ==> n == w)
            && (may ==>
                  && s.id in n.mem.value && n.mem.value - {s.id} == m - {s.id}
                  && var (r, c) := (m[s.id], n.mem.value[s.id]);
                  && c == r.(state := c.state, applyWithoutHandle := c.applyWithoutHandle)
                  && c.state.Applying? && (c.applyWithoutHandle <==> s.handle.NoHandle?)
                  && n.disk == if s.io.FailedOld? then w.disk else n.mem.value)
  {
  }

  /** In flight, with neither a task to ask nor the marker that there is none. */
  predicate UnstartedIn(m: Sets, id: string, owner: string, device: string) {
    && id in m && m[id].owner == owner && m[id].device == device
    && m[id].state.Applying? && m[id].taskId.None? && !m[id].applyWithoutHandle
  }

  predicate Unstarted(w: World, id: string, owner: string, device: string) {
    w.mem.Some? && UnstartedIn(w.mem.value, id, owner, device) && UnstartedIn(w.disk, id, owner, device)
  }

  predicate Rewrites(s: Step, id: string) {
    (s.UpdateStep? || s.UpdateFromStep?) && s.record.id == id
  }

  lemma InsertKeepsUnstarted(cfg: Config, m: Sets, disk: Sets, r: ChangeSet, now: nat,
                             sweepIo: WriteResult, io: WriteResult, id: string, owner: string, device: string)
    requires UnstartedIn(m, id, owner, device) && UnstartedIn(disk, id, owner, device)
    ensures var o := Insert(cfg, m, disk, r, now, sweepIo, io);
            UnstartedIn(o.mem, id, owner, device) && UnstartedIn(o.disk, id, owner, device)
  {
    hide Sweep, Evict, UndoSweep, Screen, Blocked, NormaliseTask, NormaliseMarker;
    NormaliseKeepsId(r);
    SweepSparesInFlight(m, now, cfg.maxChangeSets, id);
  }

  lemma UnstartedStays(cfg: Config, w: World, s: Step, id: string, owner: string, device: string)
    requires Unstarted(w, id, owner, device) && !Rewrites(s, id) && !s.Crash?
    ensures Unstarted(Next(cfg, w, s), id, owner, device)
  {
    hide Insert, CheckWrite, NormaliseTask, NormaliseMarker;
    match s
    case InsertStep(r, now, sweepIo, io) =>
      InsertKeepsUnstarted(cfg, w.mem.value, w.disk, r, now, sweepIo, io, id, owner, device);
    case UpdateFromStep(_, r, _) => NormaliseKeepsId(r);
    case UpdateStep(r, _) => NormaliseKeepsId(r);
    case _ =>
  }

  lemma {:induction false} UnstartedUntil(cfg: Config, start: World, run: seq<Step>, i: nat, j: nat)
    requires i < j <= |run| && run[i].ClaimStep? && run[i].handle.Expected?
    requires ReplyTo(cfg, At(cfg, start, run, i), run[i]).Done? && run[i].id in View(At(cfg, start, run, i))
    requires View(At(cfg, start, run, i))[run[i].id].taskId.None?
    requires forall k :: i < k < j ==> !Rewrites(run[k], run[i].id) && !run[k].Crash?
    ensures var r := View(At(cfg, start, run, i))[run[i].id];
            Unstarted(At(cfg, start, run, j), run[i].id, r.owner, r.device)
    decreases j
  {
    var w := At(cfg, start, run, i);
    var r := View(w)[run[i].id];
    if j == i + 1 {
      ClaimIsExact(cfg, w, run[i]);
    } else {
      hide Next, ReplyTo, Unstarted, Rewrites, View;
      UnstartedUntil(cfg, start, run, i, j - 1);
      UnstartedStays(cfg, At(cfg, start, run, j - 1), run[j - 1], run[i].id, r.owner, r.device);
    }
  }

  /** The server is down, and the file's copy is still in flight or already given up by a load that
      could not be finished; nothing else of that owner and device is pending. */
  predicate Stranded(w: World, id: string, owner: string, device: string) {
    && w.mem.None? && id in w.disk && w.disk[id].owner == owner && w.disk[id].device == device
    && (UnstartedIn(w.disk, id, owner, device) || w.disk[id].state.Failed?)
    && NoneElsePending(w.disk, id, owner, device)
  }

  predicate NoneElsePending(m: Sets, id: string, owner: string, device: string) {
    forall x :: x in m && x != id && m[x].owner == owner && m[x].device == device ==> !IsPending(m[x].state)
  }

  lemma CrashStrands(cfg: Config, w: World, id: string, owner: string, device: string)
    requires Inv(cfg, w) && Unstarted(w, id, owner, device)
    ensures Stranded(Next(cfg, w, Crash), id, owner, device)
  {
    hide RecordOk;
  }

  lemma LoadGivesUp(cfg: Config, w: World, s: Step, id: string, owner: string, device: string)
    requires Stranded(w, id, owner, device)
    ensures var n := Next(cfg, w, s);
            if n.mem.None? then Stranded(n, id, owner, device)
            else && n.disk == n.mem.value && id in n.disk && n.disk[id].state.Failed?
                 && NoneElsePending(n.disk, id, owner, device)
  {
    hide Act;
  }

  lemma {:induction false} StrandedUntil(cfg: Config, start: World, run: seq<Step>, i: nat, j: nat,
                                         id: string, owner: string, device: string)
    requires i <= j <= |run| && Stranded(At(cfg, start, run, i), id, owner, device)
    requires forall k :: i <= k <= j ==> At(cfg, start, run, k).mem.None?
    ensures Stranded(At(cfg, start, run, j), id, owner, device)
    decreases j
  {
    hide Next, Stranded;
    if i < j {
      StrandedUntil(cfg, start, run, i, j - 1, id, owner, device);
      LoadGivesUp(cfg, At(cfg, start, run, j - 1), run[j - 1], id, owner, device);
      assert At(cfg, start, run, j).mem.None?;
    }
  }

  /** A change set claimed at `i` with a handle expected, the server stopping at `j` before anything was
      written about it: the load that next succeeds, at `k`, has it failed, in memory and in the file,
      and nothing of its owner and device is pending, so the slot is free again. */
  lemma UnstartedApplyFails(cfg: Config, start: World, run: seq<Step>, i: nat, j: nat, k: nat)
    requires Inv(cfg, start) && i < j < k < |run| && run[i].ClaimStep? && run[i].handle.Expected?
    requires ReplyTo(cfg, At(cfg, start, run, i), run[i]).Done? && run[i].id in View(At(cfg, start, run, i))
    requires View(At(cfg, start, run, i))[run[i].id].taskId.None?
    requires forall n :: i < n < j ==> !Rewrites(run[n], run[i].id) && !run[n].Crash?
    requires run[j].Crash? && forall n :: j < n <= k ==> At(cfg, start, run, n).mem.None?
    requires At(cfg, start, run, k + 1).mem.Some?
    ensures var r := View(At(cfg, start, run, i))[run[i].id];
            var n := At(cfg, start, run, k + 1);
            && n.disk == n.mem.value && run[i].id in n.disk && n.disk[run[i].id].state.Failed?
            && forall x :: x in n.disk && IsPending(n.disk[x].state) ==>
                 n.disk[x].owner != r.owner || n.disk[x].device != r.device
  {
    hide At, Next, Inv, Unstarted, Stranded, View, ReplyTo, Rewrites;
    var id := run[i].id;
    var r := View(At(cfg, start, run, i))[id];
    UnstartedUntil(cfg, start, run, i, j);
    EveryReachableStoreIsOk(cfg, start, run, j);
    CrashStrands(cfg, At(cfg, start, run, j), id, r.owner, r.device);
    AtNext(cfg, start, run, j);
    StrandedUntil(cfg, start, run, j + 1, k, id, r.owner, r.device);
    LoadGivesUp(cfg, At(cfg, start, run, k), run[k], id, r.owner, r.device);
    AtNext(cfg, start, run, k);
  }

  lemma AtNext(cfg: Config, start: World, run: seq<Step>, k: nat)
    requires k < |run|
    ensures At(cfg, start, run, k + 1) == Next(cfg, At(cfg, start, run, k), run[k])
  {
  }

  /** A load of a stopped server succeeds exactly if there is nothing to settle or what is settled is
      written; then memory and file are the same, with every record as it was, but that an empty task
      handle is none and an apply in flight with neither a task nor the marker has failed. */
  lemma LoadIsExact(cfg: Config, w: World, io: WriteResult)
    requires w.mem.None?
    ensures var n := Next(cfg, w, Load(io));
            var calm := forall id :: id in w.disk ==>
                          && w.disk[id].taskId != Some("")
                          && (w.disk[id].state.Applying? ==> w.disk[id].taskId.Some? || w.disk[id].applyWithoutHandle);
            && (n.mem.Some? <==> calm || io.Durable?)
            && (n.mem.Some? ==> n.disk == n.mem.value && n.disk.Keys == w.disk.Keys)
            && (n.mem.Some? ==> forall id :: id in w.disk ==>
                  var r := w.disk[id];
                  var task := if r.taskId == Some("") then None else r.taskId;
                  n.disk[id] == if r.state.Applying? && task.None? && !r.applyWithoutHandle
                                then r.(taskId := task, state := ChangeSetState.Failed) else r.(taskId := task))
  {
    var m := RecoverSets(w.disk);
    if m == w.disk {
      forall id | id in w.disk
        ensures w.disk[id].taskId != Some("")
                && (w.disk[id].state.Applying? ==> w.disk[id].taskId.Some? || w.disk[id].applyWithoutHandle)
      {
        assert m[id] == RecoverSet(w.disk[id]) == w.disk[id];
      }
    }
  }

  // ---- compare-and-set on the state --------------------------------------

  lemma RankStep(cfg: Config, w: World, s: Step, id: string)
    requires Inv(cfg, w) && !s.Crash? && id in View(w) && id in View(Next(cfg, w, s))
    ensures Rank(View(w)[id].state) <= Rank(View(Next(cfg, w, s))[id].state)
  {
    hide StoreOk, Carries, Act, Rank;
    if s.Load? {
      RecoverOk(cfg, w.disk);
    } else if w.mem.Some? {
      ActOk(cfg, w.mem.value, w.disk, s);
    }
  }

  lemma {:induction false} RankClimbs(cfg: Config, start: World, run: seq<Step>, id: string, i: nat, j: nat)
    requires Inv(cfg, start) && i <= j <= |run|
    requires forall k :: i <= k < j ==> !run[k].Crash?
    requires forall k :: i <= k <= j ==> id in View(At(cfg, start, run, k))
    ensures Rank(View(At(cfg, start, run, i))[id].state) <= Rank(View(At(cfg, start, run, j))[id].state)
    decreases j
  {
    hide Inv, Next, Rank;
    if i < j {
      var w := At(cfg, start, run, j - 1);
      RankClimbs(cfg, start, run, id, i, j - 1);
      EveryReachableStoreIsOk(cfg, start, run, j - 1);
      assert id in View(w) && id in View(At(cfg, start, run, j));
      assert At(cfg, start, run, j) == Next(cfg, w, run[j - 1]);
      RankStep(cfg, w, run[j - 1], id);
    }
  }

  /** The compare in a compare-and-set looks only at the state, and that is enough to notice
      every lifecycle move: while the server stays up, a state seen again was never left. */
  lemma SameStateMeansNeverLeft(cfg: Config, start: World, run: seq<Step>, id: string, i: nat, k: nat, j: nat)
    requires Inv(cfg, start) && i <= k <= j <= |run|
    requires forall n :: i <= n < j ==> !run[n].Crash?
    requires forall n :: i <= n <= j ==> id in View(At(cfg, start, run, n))
    requires View(At(cfg, start, run, i))[id].state == View(At(cfg, start, run, j))[id].state
    ensures View(At(cfg, start, run, k))[id].state == View(At(cfg, start, run, i))[id].state
  {
    hide Inv, At, View;
    RankClimbs(cfg, start, run, id, i, k);
    RankClimbs(cfg, start, run, id, k, j);
  }
}
