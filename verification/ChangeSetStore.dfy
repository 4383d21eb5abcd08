/** The coordinator's change-set sections, each as one lock-held step over
    the in-memory map and the file. */
module ChangeSetStore {
  import opened Lifecycle
  import opened Text
  import opened Records
  import opened WriteGate

  type Sets = map<string, ChangeSet>

  /** Memory and file after a step, and what the caller was told. */
  datatype Outcome = Outcome(mem: Sets, disk: Sets, reply: Reply)

  function Lookup(m: Sets, id: string): Option<ChangeSet> {
    if id in m then Some(m[id]) else None
  }

  function Written(io: WriteResult, snapshot: Sets, disk: Sets): Sets {
    if io.FailedOld? then disk else snapshot
  }

  // ---- insert -------------------------------------------------------------

  /** Past its approval deadline, or approved by a waiver that has run out. */
  predicate Due(r: ChangeSet, now: nat) {
    IsExpirable(r.state) && (r.expiresAt <= now || WaiverLapsed(r, now))
  }

  function Sweep(m: Sets, now: nat): Sets {
    map id | id in m :: if Due(m[id], now) then m[id].(state := Expired) else m[id]
  }

  function Evict(m: Sets, max: nat): Sets {
    if |m| >= max then map id | id in m && !Evictable(m[id].state) :: m[id] else m
  }

  /** What memory holds after the sweep's own persist failed. Retired records are put back
      only if they were not evicted in the same breath; evicted ones come back as they
      were when evicted. */
  function UndoSweep(m: Sets, now: nat, max: nat): Sets {
    if |m| >= max then Sweep(m, now) else m
  }

  predicate Blocked(m: Sets, r: ChangeSet) {
    exists id :: id in m && m[id].owner == r.owner && m[id].device == r.device && IsPending(m[id].state)
  }

  /** Checks that look at the new record alone. */
  function Screen(cfg: Config, r: ChangeSet): Reply {
    if !ValidTargets(r, cfg.maxTargets) then Refused(BadTargets)
    else if !ValidPreview(cfg, r) then Refused(BadPreview)
    else if !r.state.Planned? then Refused(NotPlanned)
    else if r.approval.Some? || r.approver.Some? then Refused(BornApproved)
    else Done
  }

  function Admit(cfg: Config, m: Sets, disk: Sets, r: ChangeSet, io: WriteResult): Outcome {
    if |m| >= cfg.maxChangeSets then Outcome(m, disk, Refused(StoreFull))
    else if Blocked(m, r) then Outcome(m, disk, Refused(PendingExists))
    else
      var n := m[r.id := r];
      if io.Durable? then Outcome(n, n, Done) else Outcome(m, Written(io, n, disk), Refused(PersistFailed))
  }

  function Insert(cfg: Config, m: Sets, disk: Sets, record: ChangeSet, now: nat,
                  sweepIo: WriteResult, io: WriteResult): Outcome
  {
    var r := Normalise(record);
    if Screen(cfg, record).Refused? then Outcome(m, disk, Screen(cfg, record))
    else if r.id in m then Outcome(m, disk, Refused(AlreadyExists))
    else
      var swept := Evict(Sweep(m, now), cfg.maxChangeSets);
      if swept == m then Admit(cfg, m, disk, r, io)
      else if sweepIo.Durable? then Admit(cfg, swept, swept, r, io)
      else Outcome(UndoSweep(m, now, cfg.maxChangeSets), Written(sweepIo, swept, disk), Refused(PersistFailed))
  }

  // ---- claim and update ---------------------------------------------------

  function Claim(cfg: Config, m: Sets, disk: Sets, id: string, device: string,
                 handle: ApplyHandle, io: WriteResult): Outcome
  {
    if !ValidId(id) then Outcome(m, disk, Refused(BadId))
    else if id !in m then Outcome(m, disk, Refused(Unknown))
    else if m[id].device != device then Outcome(m, disk, Refused(WrongDevice))
    else if !m[id].state.Approved? then Outcome(m, disk, Refused(NotApproved))
    else
      var claimed := Claimed(m[id], handle);
      var gate := CheckWrite(cfg, Some(m[id]), claimed, ByClaim);
      if gate.Refused? then Outcome(m, disk, gate)
      else
        var n := m[id := claimed];
        // A failed persist deliberately keeps the claim in memory.
        Outcome(n, Written(io, n, disk), if io.Durable? then Done else Refused(PersistFailed))
  }

  function Update(cfg: Config, m: Sets, disk: Sets, record: ChangeSet, io: WriteResult): Outcome {
    var r := Normalise(record);
    var gate := CheckWrite(cfg, Lookup(m, r.id), r, ByUpdate);
    if gate.Refused? then Outcome(m, disk, gate)
    else
      var n := m[r.id := r];
      if io.Durable? then Outcome(n, n, Done) else Outcome(m, Written(io, n, disk), Refused(PersistFailed))
  }

  function UpdateFrom(cfg: Config, m: Sets, disk: Sets, observed: ChangeSetState,
                      record: ChangeSet, io: WriteResult): Outcome
  {
    if record.id !in m then Outcome(m, disk, Refused(Unknown))
    else if m[record.id].state != observed then Outcome(m, disk, Refused(Moved))
    else Update(cfg, m, disk, record, io)
  }

  // ---- restart ------------------------------------------------------------

  /** An apply caught by a restart with neither a handle nor the handleless marker never
      started as far as anything can tell. */
  function RecoverSet(r: ChangeSet): ChangeSet {
    var n := NormaliseTask(r);
    if n.state.Applying? && n.taskId.None? && !n.applyWithoutHandle then n.(state := ChangeSetState.Failed) else n
  }

  function RecoverSets(m: Sets): Sets {
    map id | id in m :: RecoverSet(m[id])
  }
}
