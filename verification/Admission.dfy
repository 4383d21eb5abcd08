/** When a new change set is taken, and what the sweep before it leaves of the others. */
module Admission {
  import opened Lifecycle
  import opened Text
  import opened Records
  import opened WriteGate
  import opened ChangeSetStore
  import opened ChangeSetProtocol

  // ---- what is asked, in the record's own terms ----------------------------------------------

  /** Before its own deadline, and before that of the waiver that approved it, if one did. */
  predicate InTime(r: ChangeSet, now: nat) {
    && now < r.expiresAt
    && match r.approval
       case Some(Approval(_, _, _, _, Some(Waiver(_, _, Some(until), _)))) => now < until
       case _ => true
  }

  predicate Overdue(r: ChangeSet, now: nat) {
    (r.state.Planned? || r.state.Approved?) && !InTime(r, now)
  }

  /** In flight, or planned or approved and still in time. */
  predicate Live(r: ChangeSet, now: nat) {
    r.state.Applying? || ((r.state.Planned? || r.state.Approved?) && InTime(r, now))
  }

  /** A plan and nothing more: nobody has approved it, its targets are in order and include its device,
      and its preview, if any, is of its own text and not too long. */
  predicate Acceptable(cfg: Config, r: ChangeSet) {
    && r.state.Planned? && r.approval.None? && r.approver.None?
    && (r.plan.targets != [] ==>
          && |r.plan.targets| <= cfg.maxTargets && r.device in r.plan.targets && "" !in r.plan.targets
          && forall i, j :: 0 <= i < j < |r.plan.targets| ==> Less(r.plan.targets[i], r.plan.targets[j]))
    && (r.preview.Some? ==>
          && |r.preview.value.artifact| <= cfg.maxPreview && ValidDigest(r.preview.value.digest)
          && r.preview.value.digest == cfg.previewDigest(r.preview.value.artifact))
  }

  /** There is room, at capacity without everything that is finished or overdue. */
  predicate Room(m: Sets, now: nat, max: nat) {
    |m| < max || |LiveIds(m, now)| < max
  }

  function LiveIds(m: Sets, now: nat): set<string> {
    set id | id in m && Live(m[id], now)
  }

  /** The owner has nothing live on the device. */
  predicate SlotFree(m: Sets, r: ChangeSet, now: nat) {
    forall id :: id in m && Live(m[id], now) ==> m[id].owner != r.owner || m[id].device != r.device
  }

  /** Something is overdue, or, at capacity, finished. */
  predicate SweepNeeded(m: Sets, now: nat, max: nat) {
    exists id :: id in m && (Overdue(m[id], now) || (|m| >= max && !Live(m[id], now)))
  }

  /** What is left of the others: at capacity only what is live, else everything, what is overdue as
      expired. */
  ghost predicate SweptTo(m: Sets, n: Sets, now: nat, max: nat) {
    && (forall id :: id in n <==> id in m && (|m| < max || Live(m[id], now)))
    && (forall id :: id in n ==> n[id] == if Overdue(m[id], now) then m[id].(state := Expired) else m[id])
  }

  /** As the record is stored: an empty task handle is none, and no plan is an apply without a handle. */
  function AsStored(r: ChangeSet): ChangeSet {
    r.(taskId := if r.taskId == Some("") then None else r.taskId, applyWithoutHandle := false)
  }

  // ---- the store's own terms mean that -----------------------------------------------------------

  lemma DueIff(r: ChangeSet, now: nat)
    ensures Due(r, now) <==> Overdue(r, now)
  {
  }

  lemma SweepIs(m: Sets, now: nat, max: nat)
    ensures SweptTo(m, Evict(Sweep(m, now), max), now, max)
  {
    hide InTime, WaiverLapsed;
    forall id | id in m ensures Due(m[id], now) <==> Overdue(m[id], now) {
      DueIff(m[id], now);
    }
    assert Sweep(m, now).Keys == m.Keys;
    assert |Sweep(m, now)| == |m| by {
      assert |Sweep(m, now).Keys| == |m.Keys|;
    }
    hide Due;
  }

  lemma SweptIffNeeded(m: Sets, n: Sets, now: nat, max: nat)
    requires SweptTo(m, n, now, max)
    ensures n != m <==> SweepNeeded(m, now, max)
  {
    hide InTime;
    if !SweepNeeded(m, now, max) {
      assert n == m;
    } else {
      var id :| id in m && (Overdue(m[id], now) || (|m| >= max && !Live(m[id], now)));
      assert id in n ==> n[id] != m[id];
    }
  }

  lemma RoomIff(m: Sets, n: Sets, now: nat, max: nat)
    requires SweptTo(m, n, now, max)
    ensures |n| < max <==> Room(m, now, max)
  {
    hide InTime;
    if |m| < max {
      assert n.Keys == m.Keys;
    } else {
      assert n.Keys == LiveIds(m, now);
    }
    assert |n| == |n.Keys| && |m| == |m.Keys|;
  }

  lemma FreeIff(m: Sets, n: Sets, r: ChangeSet, now: nat, max: nat)
    requires SweptTo(m, n, now, max)
    ensures Blocked(n, r) <==> !SlotFree(m, r, now)
  {
    hide InTime;
    if !SlotFree(m, r, now) {
      var id :| id in m && Live(m[id], now) && m[id].owner == r.owner && m[id].device == r.device;
      assert id in n && n[id] == m[id];
    }
  }

  lemma ScreenIff(cfg: Config, r: ChangeSet)
    ensures Screen(cfg, r).Done? <==> Acceptable(cfg, r)
  {
    var ts := r.plan.targets;
    if forall i :: 0 < i < |ts| ==> Less(ts[i - 1], ts[i]) {
      forall i, j | 0 <= i < j < |ts| ensures Less(ts[i], ts[j]) {
        Ascending(ts, i, j);
      }
    }
    hide Less, ValidDigest;
    assert "" !in ts <==> forall i :: 0 <= i < |ts| ==> ts[i] != "";
  }

  lemma {:induction false} Ascending(ts: seq<string>, i: nat, j: nat)
    requires i < j < |ts| && forall k :: 0 < k < |ts| ==> Less(ts[k - 1], ts[k])
    ensures Less(ts[i], ts[j])
    decreases j
  {
    hide Less;
    assert Less(ts[j - 1], ts[j]);
    if i < j - 1 {
      Ascending(ts, i, j - 1);
      LessTransitive(ts[i], ts[j - 1], ts[j]);
    }
  }

  lemma StoredAs(r: ChangeSet)
    requires r.state.Planned?
    ensures Normalise(r) == AsStored(r)
  {
  }

  // ---- the insert ---------------------------------------------------------------------------------

  /** A new change set is taken exactly if it is a mere plan under a new id, there is room, its owner has
      nothing live on the device, and what has to be written is. Then memory and file hold it and what
      the sweep leaves of the others. */
  lemma InsertIsExact(cfg: Config, w: World, s: Step)
    requires s.InsertStep? && w.mem.Some?
    ensures var m := w.mem.value;
            var r := s.record;
            var n := Next(cfg, w, s);
            && n.mem.Some?
            && (ReplyTo(cfg, w, s).Done? <==>
                  && Acceptable(cfg, r) && r.id !in m
                  && Room(m, s.now, cfg.maxChangeSets) && SlotFree(m, r, s.now)
                  && s.io.Durable? && (SweepNeeded(m, s.now, cfg.maxChangeSets) ==> s.sweepIo.Durable?))
            && (ReplyTo(cfg, w, s).Done? ==>
                  && n.disk == n.mem.value && r.id in n.disk && n.disk[r.id] == AsStored(r)
                  && SweptTo(m, n.disk - {r.id}, s.now, cfg.maxChangeSets))
  {
    hide Sweep, Evict, Acceptable, Normalise, AsStored, Room, SweepNeeded, InTime, Insert, SlotFree;
    var m := w.mem.value;
    var r := s.record;
    var swept := Evict(Sweep(m, s.now), cfg.maxChangeSets);
    SweepIs(m, s.now, cfg.maxChangeSets);
    InsertTakes(cfg, m, w.disk, r, s.now, s.sweepIo, s.io);
    if ReplyTo(cfg, w, s).Done? {
      assert r.id !in swept;
      assert swept[r.id := AsStored(r)] - {r.id} == swept;
    }
  }

  lemma InsertTakes(cfg: Config, m: Sets, disk: Sets, r: ChangeSet, now: nat, sweepIo: WriteResult, io: WriteResult)
    ensures var o := Insert(cfg, m, disk, r, now, sweepIo, io);
            && (o.reply.Done? <==>
                  && Acceptable(cfg, r) && r.id !in m && Room(m, now, cfg.maxChangeSets) && SlotFree(m, r, now)
                  && io.Durable? && (SweepNeeded(m, now, cfg.maxChangeSets) ==> sweepIo.Durable?))
            && (o.reply.Done? ==>
                  o.disk == o.mem == Evict(Sweep(m, now), cfg.maxChangeSets)[r.id := AsStored(r)])
  {
    hide Sweep, Evict, UndoSweep, Screen, Acceptable, Blocked, AsStored, Room, SweepNeeded, InTime, SlotFree,
      NormaliseTask, NormaliseMarker;
    var swept := Evict(Sweep(m, now), cfg.maxChangeSets);
    ScreenIff(cfg, r);
    SweepIs(m, now, cfg.maxChangeSets);
    SweptIffNeeded(m, swept, now, cfg.maxChangeSets);
    RoomIff(m, swept, now, cfg.maxChangeSets);
    FreeIff(m, swept, Normalise(r), now, cfg.maxChangeSets);
    SameSlot(m, r, now);
    if Acceptable(cfg, r) {
      AcceptableIsPlanned(cfg, r);
      StoredAs(r);
    }
  }

  lemma SameSlot(m: Sets, r: ChangeSet, now: nat)
    ensures SlotFree(m, Normalise(r), now) <==> SlotFree(m, r, now)
    ensures Normalise(r).id == r.id
  {
    hide Live;
  }

  lemma AcceptableIsPlanned(cfg: Config, r: ChangeSet)
    requires Acceptable(cfg, r)
    ensures r.state.Planned?
  {
  }

  /** After an insert that passes the screen, on a new id, with its sweep written, nothing in memory but
      the new record is planned or approved and out of time; nor is anything in the file, unless the
      file was not written. */
  lemma NothingOverdueIsLeft(cfg: Config, w: World, s: Step, id: string)
    requires s.InsertStep? && w.mem.Some? && Acceptable(cfg, s.record) && s.record.id !in w.mem.value
    requires s.sweepIo.Durable? && id != s.record.id
    ensures var n := Next(cfg, w, s);
            && n.mem.Some?
            && (id in n.mem.value && (n.mem.value[id].state.Planned? || n.mem.value[id].state.Approved?) ==>
                  InTime(n.mem.value[id], s.now))
            && (n.disk == w.disk
                || (id in n.disk && (n.disk[id].state.Planned? || n.disk[id].state.Approved?) ==>
                      InTime(n.disk[id], s.now)))
  {
    hide Sweep, Evict, Acceptable, Normalise, InTime, Insert;
    var m := w.mem.value;
    var swept := Evict(Sweep(m, s.now), cfg.maxChangeSets);
    SweepIs(m, s.now, cfg.maxChangeSets);
    InsertLeaves(cfg, m, w.disk, s.record, s.now, s.sweepIo, s.io);
    if id in swept {
      SweptInTime(m[id], swept[id], s.now);
    }
  }

  lemma InsertLeaves(cfg: Config, m: Sets, disk: Sets, r: ChangeSet, now: nat, sweepIo: WriteResult, io: WriteResult)
    requires Acceptable(cfg, r) && r.id !in m && sweepIo.Durable?
    ensures var o := Insert(cfg, m, disk, r, now, sweepIo, io);
            var swept := Evict(Sweep(m, now), cfg.maxChangeSets);
            var more := swept[r.id := Normalise(r)];
            (o.mem == swept || o.mem == more) && (o.disk == disk || o.disk == swept || o.disk == more)
  {
    hide Sweep, Evict, Blocked, Acceptable, Screen, NormaliseTask, NormaliseMarker;
    ScreenIff(cfg, r);
  }

  lemma SweptInTime(r: ChangeSet, n: ChangeSet, now: nat)
    requires n == if Overdue(r, now) then r.(state := Expired) else r
    ensures n.state.Planned? || n.state.Approved? ==> InTime(n, now)
  {
  }

  // ---- updates ------------------------------------------------------------------------------------

  /** As an update is stored. */
  function AsUpdated(r: ChangeSet): ChangeSet {
    r.(taskId := if r.taskId == Some("") then None else r.taskId,
       applyWithoutHandle := r.applyWithoutHandle && r.state.Applying?)
  }

  /** An update is taken exactly if the record is known, in the state the caller saw if they say so, the
      gate lets it through and it is written; memory changes then only. The file has it if the gate let
      it through and the new file is in place. */
  lemma UpdateIsExact(cfg: Config, w: World, s: Step)
    requires (s.UpdateStep? || s.UpdateFromStep?) && w.mem.Some?
    ensures var (m, id, stored) := (w.mem.value, s.record.id, AsUpdated(s.record));
            var n := Next(cfg, w, s);
            var may := && id in m && (s.UpdateFromStep? ==> m[id].state == s.observed)
                       && CheckWrite(cfg, Some(m[id]), stored, ByUpdate).Done?;
            && n.mem.Some? && (ReplyTo(cfg, w, s).Done? <==> may && s.io.Durable?)
            && n.mem.value == (if may && s.io.Durable? then m[id := stored] else m)
            && n.disk == if may && !s.io.FailedOld? then m[id := stored] else w.disk
  {
    GateIsExact(cfg, s.record, AsUpdated(s.record));
    hide CheckWrite;
    assert Normalise(s.record) == AsUpdated(s.record);
  }
}
