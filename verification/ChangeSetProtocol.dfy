/** Every interleaving of the change-set sections with persist failures, crashes and restarts,
    and what holds over whole runs. A lifecycle call reads a copy of a record, lets the lock go
    and writes back later, so its write is an `UpdateFrom` or `Update` carrying any record at all. */
module ChangeSetProtocol {
  import opened Lifecycle
  import opened Text
  import opened Records
  import opened WriteGate
  import opened ChangeSetStore

  datatype World = World(mem: Option<Sets>, disk: Sets)

  datatype Step =
    | InsertStep(record: ChangeSet, now: nat, sweepIo: WriteResult, io: WriteResult)
    | ClaimStep(id: string, device: string, handle: ApplyHandle, io: WriteResult)
    | UpdateFromStep(observed: ChangeSetState, record: ChangeSet, io: WriteResult)
    | UpdateStep(record: ChangeSet, io: WriteResult)
    | OtherPersist(io: WriteResult)
    | Crash
    | Load(io: WriteResult)

  function Act(cfg: Config, m: Sets, disk: Sets, s: Step): Outcome
    requires !s.Crash? && !s.Load?
  {
    match s
    case InsertStep(r, now, sweepIo, io) => Insert(cfg, m, disk, r, now, sweepIo, io)
    case ClaimStep(id, device, handle, io) => Claim(cfg, m, disk, id, device, handle, io)
    case UpdateFromStep(observed, r, io) => UpdateFrom(cfg, m, disk, observed, r, io)
    case UpdateStep(r, io) => Update(cfg, m, disk, r, io)
    case OtherPersist(io) => Outcome(m, Written(io, m, disk), Done)
  }

  function Restart(disk: Sets, io: WriteResult): World {
    var m := RecoverSets(disk);
    if m == disk || io.Durable? then World(Some(m), m) else World(None, Written(io, m, disk))
  }

  function Next(cfg: Config, w: World, s: Step): World {
    if s.Crash? then World(None, w.disk)
    else if s.Load? then (if w.mem.Some? then w else Restart(w.disk, s.io))
    else if w.mem.None? then w
    else
      var o := Act(cfg, w.mem.value, w.disk, s);
      World(Some(o.mem), o.disk)
  }

  function ReplyTo(cfg: Config, w: World, s: Step): Reply {
    if s.Crash? || s.Load? || w.mem.None? then Refused(NotRunning) else Act(cfg, w.mem.value, w.disk, s).reply
  }

  /** The world before step `k` of a run. */
  function At(cfg: Config, start: World, run: seq<Step>, k: nat): World
    requires k <= |run|
  {
    if k == 0 then start else Next(cfg, At(cfg, start, run, k - 1), run[k - 1])
  }

  /** What a reader is given: memory while the server runs, the file otherwise. */
  function View(w: World): Sets {
    if w.mem.Some? then w.mem.value else w.disk
  }

  // ---- the invariant ------------------------------------------------------

  ghost predicate OnePending(m: Sets) {
    forall a, b :: a in m && b in m && a != b && IsPending(m[a].state) && IsPending(m[b].state)
                   ==> m[a].owner != m[b].owner || m[a].device != m[b].device
  }

  ghost predicate StoreOk(cfg: Config, m: Sets) {
    && (forall id :: id in m ==> m[id].id == id && RecordOk(cfg, m[id]))
    && OnePending(m)
    && |m| <= cfg.maxChangeSets
  }

  /** Where memory and file both hold a record, the file's copy carries memory's evidence. */
  ghost predicate Agree(m: Sets, disk: Sets) {
    forall id :: id in m && id in disk ==> Carries(m[id], disk[id])
  }

  ghost predicate Inv(cfg: Config, w: World) {
    && StoreOk(cfg, w.disk)
    && (w.mem.Some? ==> StoreOk(cfg, w.mem.value) && Agree(w.mem.value, w.disk))
  }

  /** Records present on both sides of a step keep their evidence and only move forward. */
  ghost predicate Forward(m: Sets, n: Sets) {
    forall id :: id in m && id in n ==> Carries(m[id], n[id]) && Rank(m[id].state) <= Rank(n[id].state)
  }

  lemma SubmapSize(m: Sets, n: Sets)
    requires n.Keys <= m.Keys
    ensures |n| <= |m|
  {
    var rest := m.Keys - n.Keys;
    assert m.Keys == n.Keys + rest;
    assert |m.Keys| == |n.Keys| + |rest|;
  }

  /** How one record may change in a step that admits no new record. */
  predicate Advances(cfg: Config, r: ChangeSet, n: ChangeSet) {
    && n.id == r.id && RecordOk(cfg, n) && Carries(r, n)
    && Rank(r.state) <= Rank(n.state)
    && (IsPending(n.state) ==> IsPending(r.state))
  }

  lemma PendingNarrows(m: Sets, n: Sets)
    requires OnePending(m) && n.Keys <= m.Keys
    requires forall id :: id in n ==> n[id].owner == m[id].owner && n[id].device == m[id].device
                                      && (IsPending(n[id].state) ==> IsPending(m[id].state))
    ensures OnePending(n)
  {
  }

  lemma AdvanceOk(cfg: Config, m: Sets, n: Sets)
    requires StoreOk(cfg, m) && n.Keys <= m.Keys
    requires forall id :: id in n ==> Advances(cfg, m[id], n[id])
    ensures StoreOk(cfg, n) && Forward(m, n)
  {
    SubmapSize(m, n);
    PendingNarrows(m, n);
  }

  lemma SweepOk(cfg: Config, m: Sets, now: nat)
    requires StoreOk(cfg, m)
    ensures StoreOk(cfg, Sweep(m, now)) && Forward(m, Sweep(m, now)) && |Sweep(m, now)| == |m|
  {
    var n := Sweep(m, now);
    SubmapSize(m, n);
    SubmapSize(n, m);
    forall id | id in n ensures Advances(cfg, m[id], n[id]) {}
    AdvanceOk(cfg, m, n);
  }

  lemma EvictOk(cfg: Config, m: Sets)
    requires StoreOk(cfg, m)
    ensures StoreOk(cfg, Evict(m, cfg.maxChangeSets)) && Forward(m, Evict(m, cfg.maxChangeSets))
  {
    AdvanceOk(cfg, m, Evict(m, cfg.maxChangeSets));
  }

  /** What every step's outcome must satisfy. */
  ghost predicate Sound(cfg: Config, m: Sets, o: Outcome) {
    StoreOk(cfg, o.mem) && StoreOk(cfg, o.disk) && Agree(o.mem, o.disk) && Forward(m, o.mem)
  }

  lemma Reflects(m: Sets)
    ensures Agree(m, m) && Forward(m, m)
  {
  }

  lemma PendingAdds(m: Sets, r: ChangeSet)
    requires OnePending(m) && !Blocked(m, r)
    ensures OnePending(m[r.id := r])
  {
    var n := m[r.id := r];
    forall a, b | a in n && b in n && a != b && IsPending(n[a].state) && IsPending(n[b].state)
      ensures n[a].owner != n[b].owner || n[a].device != n[b].device
    {
      if a != r.id && b != r.id {
        assert m[a].owner != m[b].owner || m[a].device != m[b].device;
      }
    }
  }

  /** A new record for a free slot. */
  lemma AddOk(cfg: Config, m: Sets, r: ChangeSet)
    requires StoreOk(cfg, m) && r.id !in m && RecordOk(cfg, r)
    requires |m| < cfg.maxChangeSets && !Blocked(m, r)
    ensures StoreOk(cfg, m[r.id := r]) && Forward(m, m[r.id := r])
  {
    hide RecordOk, Carries, OnePending;
    var n := m[r.id := r];
    assert n.Keys == m.Keys + {r.id};
    PendingAdds(m, r);
    Reflects(m);
  }

  lemma AdmitOk(cfg: Config, m: Sets, disk: Sets, r: ChangeSet, io: WriteResult)
    requires StoreOk(cfg, m) && StoreOk(cfg, disk) && Agree(m, disk)
    requires r.id !in m && RecordOk(cfg, r)
    ensures Sound(cfg, m, Admit(cfg, m, disk, r, io))
  {
    hide StoreOk, Carries, RecordOk;
    Reflects(m);
    if |m| < cfg.maxChangeSets && !Blocked(m, r) {
      AddOk(cfg, m, r);
      Reflects(m[r.id := r]);
    }
  }

  lemma ForwardTransitive(a: Sets, b: Sets, c: Sets)
    requires Forward(a, b) && Forward(b, c) && c.Keys <= b.Keys
    ensures Forward(a, c)
  {
  }

  lemma InsertOk(cfg: Config, m: Sets, disk: Sets, r: ChangeSet, now: nat, sweepIo: WriteResult, io: WriteResult)
    requires StoreOk(cfg, m) && StoreOk(cfg, disk) && Agree(m, disk)
    ensures Sound(cfg, m, Insert(cfg, m, disk, r, now, sweepIo, io))
  {
    Reflects(m);
    var n := Normalise(r);
    if Screen(cfg, r).Done? && n.id !in m {
      assert RecordOk(cfg, n);
      hide StoreOk, Carries, RecordOk, Admit, Screen, Normalise, Due, Agree, Forward;
      var swept := Sweep(m, now);
      var evicted := Evict(swept, cfg.maxChangeSets);
      SweepOk(cfg, m, now);
      EvictOk(cfg, swept);
      ForwardTransitive(m, swept, evicted);
      SweptAgree(m, disk, now, evicted);
      Reflects(evicted);
      if evicted == m {
        AdmitOk(cfg, m, disk, n, io);
      } else if sweepIo.Durable? {
        AdmitOk(cfg, evicted, evicted, n, io);
        AdmitForward(m, evicted, cfg, n, io);
      }
    }
  }

  /** Whichever way the sweep's persist fails, memory still agrees with the file. */
  lemma SweptAgree(m: Sets, disk: Sets, now: nat, evicted: Sets)
    requires Agree(m, disk) && Forward(Sweep(m, now), evicted) && Forward(m, evicted)
    ensures Agree(Sweep(m, now), disk) && Agree(m, evicted) && Agree(Sweep(m, now), evicted)
  {
    forall id | id in m && id in disk ensures Carries(Sweep(m, now)[id], disk[id]) {
      assert Carries(m[id], disk[id]);
    }
  }

  lemma AdmitForward(m: Sets, e: Sets, cfg: Config, r: ChangeSet, io: WriteResult)
    requires Forward(m, e) && r.id !in m
    ensures Forward(m, Admit(cfg, e, e, r, io).mem)
  {
  }

  /** Overwriting one record with one it advances to. */
  lemma ReplaceOk(cfg: Config, m: Sets, n: ChangeSet)
    requires StoreOk(cfg, m) && n.id in m && Advances(cfg, m[n.id], n)
    ensures StoreOk(cfg, m[n.id := n]) && Forward(m, m[n.id := n])
  {
    hide RecordOk, Carries;
    var next := m[n.id := n];
    assert next.Keys == m.Keys;
    forall id | id in next ensures Advances(cfg, m[id], next[id]) {
      if id != n.id { SameAdvances(cfg, m[id]); }
    }
    AdvanceOk(cfg, m, next);
  }

  lemma SameAdvances(cfg: Config, r: ChangeSet)
    requires RecordOk(cfg, r)
    ensures Advances(cfg, r, r)
  {
  }

  lemma ClaimAdvances(cfg: Config, r: ChangeSet, handle: ApplyHandle)
    requires RecordOk(cfg, r) && r.state.Approved?
    ensures Advances(cfg, r, Claimed(r, handle))
    ensures forall d :: Carries(r, d) ==> Carries(Claimed(r, handle), d)
  {
  }

  lemma ClaimReplaces(cfg: Config, m: Sets, disk: Sets, id: string, handle: ApplyHandle)
    requires StoreOk(cfg, m) && Agree(m, disk) && id in m && m[id].state.Approved?
    ensures var n := m[id := Claimed(m[id], handle)];
            StoreOk(cfg, n) && Forward(m, n) && Agree(n, disk)
  {
    hide Carries, RecordOk;
    ClaimAdvances(cfg, m[id], handle);
    ReplaceOk(cfg, m, Claimed(m[id], handle));
  }

  lemma ClaimOk(cfg: Config, m: Sets, disk: Sets, id: string, device: string, handle: ApplyHandle, io: WriteResult)
    requires StoreOk(cfg, m) && StoreOk(cfg, disk) && Agree(m, disk)
    ensures Sound(cfg, m, Claim(cfg, m, disk, id, device, handle, io))
  {
    hide StoreOk, Forward, Agree, CheckWrite, Claimed;
    Reflects(m);
    if id in m && m[id].state.Approved? {
      ClaimReplaces(cfg, m, disk, id, handle);
      Reflects(m[id := Claimed(m[id], handle)]);
    }
  }

  lemma UpdateOk(cfg: Config, m: Sets, disk: Sets, r: ChangeSet, io: WriteResult)
    requires StoreOk(cfg, m) && StoreOk(cfg, disk) && Agree(m, disk)
    ensures Sound(cfg, m, Update(cfg, m, disk, r, io))
  {
    Reflects(m);
    var next := Normalise(r);
    if CheckWrite(cfg, Lookup(m, next.id), next, ByUpdate).Done? {
      UpdateKeepsEvidence(cfg, m[next.id], r);
      hide StoreOk, RecordOk, Carries, CheckWrite;
      ReplaceOk(cfg, m, next);
      Reflects(m[next.id := next]);
    }
  }

  lemma RecoverOk(cfg: Config, m: Sets)
    requires StoreOk(cfg, m)
    ensures StoreOk(cfg, RecoverSets(m)) && Forward(m, RecoverSets(m))
  {
    var n := RecoverSets(m);
    forall id | id in n ensures Advances(cfg, m[id], n[id]) {}
    AdvanceOk(cfg, m, n);
  }

  lemma ActOk(cfg: Config, m: Sets, disk: Sets, s: Step)
    requires StoreOk(cfg, m) && StoreOk(cfg, disk) && Agree(m, disk)
    requires !s.Crash? && !s.Load?
    ensures Sound(cfg, m, Act(cfg, m, disk, s))
  {
    hide StoreOk, Carries, Insert, Claim, Update;
    Reflects(m);
    match s
    case InsertStep(r, now, sweepIo, io) => InsertOk(cfg, m, disk, r, now, sweepIo, io);
    case ClaimStep(id, device, handle, io) => ClaimOk(cfg, m, disk, id, device, handle, io);
    case UpdateFromStep(observed, r, io) => UpdateOk(cfg, m, disk, r, io);
    case UpdateStep(r, io) => UpdateOk(cfg, m, disk, r, io);
    case OtherPersist(io) =>
  }

  lemma StepKeepsInv(cfg: Config, w: World, s: Step)
    requires Inv(cfg, w)
    ensures Inv(cfg, Next(cfg, w, s))
  {
    if s.Load? {
      RecoverOk(cfg, w.disk);
    } else if !s.Crash? && w.mem.Some? {
      ActOk(cfg, w.mem.value, w.disk, s);
    }
  }

  /** One pending change set per owner and device, at most `maxChangeSets` records and no
      self-approval, in memory and in every snapshot the file ever holds. */
  lemma {:induction false} EveryReachableStoreIsOk(cfg: Config, start: World, run: seq<Step>, k: nat)
    requires Inv(cfg, start) && k <= |run|
    ensures Inv(cfg, At(cfg, start, run, k))
  {
    if k > 0 {
      EveryReachableStoreIsOk(cfg, start, run, k - 1);
      StepKeepsInv(cfg, At(cfg, start, run, k - 1), run[k - 1]);
    }
  }
}
