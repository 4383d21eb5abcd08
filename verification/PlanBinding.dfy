/** Whether the actions an apply stages are those that were approved. The write gate freezes the plan's
    digest and never looks at the plan under it. */
module PlanBinding {
  import opened Lifecycle
  import opened Text
  import opened Records
  import opened WriteGate
  import opened ChangeSetStore
  import opened ChangeSetProtocol
  import opened ChangeSetTheorems
  import opened SmallRuns
  import opened StaleCopies
  import opened ApplyGate
  import D = Digests

  /** What a change set's plan digest is computed over. */
  function PlanOf(r: ChangeSet): D.Subject {
    D.ThePlan(r.owner, r.device, r.plan.fingerprint, r.plan.actions, r.plan.targets)
  }

  /** The stored digest is that of the stored plan. */
  ghost predicate PlanConsistent(sha: string -> string, r: ChangeSet) {
    D.Encodable(PlanOf(r)) && r.digest == sha(D.Preimage(PlanOf(r)))
  }

  ghost predicate Injective(sha: string -> string) {
    forall x, y :: sha(x) == sha(y) ==> x == y
  }

  predicate SamePlan(a: ChangeSet, b: ChangeSet) {
    a.plan.fingerprint == b.plan.fingerprint && a.plan.actions == b.plan.actions && a.plan.targets == b.plan.targets
  }

  /** What the digest is about, and the digest itself. */
  predicate SameBinding(a: ChangeSet, b: ChangeSet) {
    PlanOf(a) == PlanOf(b) && a.digest == b.digest
  }

  // ---- one write ----------------------------------------------------------------------------

  lemma OneDigestOnePlan(sha: string -> string, a: ChangeSet, b: ChangeSet)
    requires Injective(sha) && PlanConsistent(sha, a) && PlanConsistent(sha, b) && a.digest == b.digest
    ensures SamePlan(a, b)
  {
    hide D.Preimage, D.Encodable;
    D.PreimageDetermines(PlanOf(a), PlanOf(b));
  }

  /** Over any well-formed record the gate accepts the same record with any other plan. */
  lemma AnyPlanIsAccepted(cfg: Config, c: ChangeSet, plan: Plan)
    requires RecordOk(cfg, c)
    ensures Normalise(c.(plan := plan)) == c.(plan := plan)
    ensures CheckWrite(cfg, Some(c), c.(plan := plan), ByUpdate).Done?
  {
  }

  /** An accepted write over a record whose digest is that of its plan keeps the plan exactly when the
      digest is that of the plan it writes. */
  lemma PlanKeptIff(cfg: Config, sha: string -> string, c: ChangeSet, n: ChangeSet)
    requires Injective(sha) && PlanConsistent(sha, c)
    requires CheckWrite(cfg, Some(c), Normalise(n), ByUpdate).Done?
    ensures SamePlan(c, n) <==> PlanConsistent(sha, n)
  {
    UpdateKeepsEvidence(cfg, c, n);
    hide CheckWrite, RecordOk, D.Preimage, D.Encodable;
    if PlanConsistent(sha, n) {
      OneDigestOnePlan(sha, c, n);
    }
  }

  // ---- a run in which the actions change between approval and claim --------------------------

  /** Planned and approved by a second person; the actions replaced by an update; claimed. */
  function SwappingRun(cfg: Config, id: string, digest: string, actions: seq<Json.Json>, approver: string, now: nat,
                       sign: (string, string, Option<string>, string, string, nat) -> string): seq<Step>
  {
    var approved := ApprovedFrom(cfg, NewPlan(id, digest), approver, now, sign);
    [InsertStep(NewPlan(id, digest), 0, Durable, Durable), UpdateFromStep(Planned, approved, Durable),
     UpdateStep(WithActions(approved, actions), Durable), ClaimStep(id, "fw-01", Expected, Durable)]
  }

  function WithActions(r: ChangeSet, actions: seq<Json.Json>): ChangeSet {
    r.(plan := r.plan.(actions := actions))
  }

  lemma ApprovedIsAccepted(cfg: Config, id: string, digest: string, approver: string, now: nat,
                           sign: (string, string, Option<string>, string, string, nat) -> string)
    requires ValidDigest(digest) && approver != "alice" && '|' !in approver && now < 100
    ensures var seen := NewPlan(id, digest);
            var approved := ApprovedFrom(cfg, seen, approver, now, sign);
            && approved == seen.(state := Approved, approver := approved.approver, approval := approved.approval)
            && Genuine(approved) && RecordOk(cfg, approved) && Normalise(approved) == approved
            && CheckBefore(approved, Request("alice", digest, ""), false, now).Done?
            && CheckWrite(cfg, Some(seen), approved, ByUpdate).Done?
  {
  }

  /** Genuinely approved, checked twice and claimed, with actions nobody approved. */
  lemma ActionsCanBeSwapped(cfg: Config, id: string, digest: string, actions: seq<Json.Json>, approver: string,
                            now: nat, sign: (string, string, Option<string>, string, string, nat) -> string)
    requires cfg.maxChangeSets > 0 && ValidId(id)
    requires ValidDigest(digest) && approver != "alice" && '|' !in approver && now < 100
    ensures var run := SwappingRun(cfg, id, digest, actions, approver, now, sign);
            var q := Request("alice", digest, "");
            var approved := ApprovedFrom(cfg, NewPlan(id, digest), approver, now, sign);
            && Inv(cfg, EMPTY) && Genuine(approved)
            && At(cfg, EMPTY, run, 2) == Holding(approved) && CheckBefore(approved, q, false, now).Done?
            && At(cfg, EMPTY, run, 3) == Holding(WithActions(approved, actions))
            && CheckAfter(WithActions(approved, actions), q, now).Done?
            && ClaimSucceeds(cfg, At(cfg, EMPTY, run, 3), run[3], id)
  {
    var run := SwappingRun(cfg, id, digest, actions, approver, now, sign);
    var seen := NewPlan(id, digest);
    var approved := ApprovedFrom(cfg, seen, approver, now, sign);
    var swapped := WithActions(approved, actions);
    ApprovedIsAccepted(cfg, id, digest, approver, now, sign);
    AnyPlanIsAccepted(cfg, approved, swapped.plan);
    ClaimGoesThrough(cfg, swapped);
    hide Next, ReplyTo, CheckWrite, ApprovedFrom, RecordOk, Normalise, ValidDigest, ValidId;
    PlanIsStored(cfg, id, digest);
    WriteIsStored(cfg, seen, approved);
    WriteIsStored(cfg, approved, swapped);
    assert At(cfg, EMPTY, run, 1) == Next(cfg, EMPTY, run[0]);
    assert At(cfg, EMPTY, run, 2) == Next(cfg, Holding(seen), run[1]);
    assert At(cfg, EMPTY, run, 3) == Next(cfg, Holding(approved), run[2]);
  }

  lemma ClaimGoesThrough(cfg: Config, r: ChangeSet)
    requires ValidId(r.id) && r.state.Approved?
    ensures ReplyTo(cfg, Holding(r), ClaimStep(r.id, r.device, Expected, Durable)).Done?
  {
  }

  // ---- whole runs ----------------------------------------------------------------------------

  /** Every copy of `id` that exists has the digest of its own plan. */
  ghost predicate ConsistentIn(sha: string -> string, w: World, id: string) {
    && (id in w.disk ==> PlanConsistent(sha, w.disk[id]))
    && (w.mem.Some? && id in w.mem.value ==> PlanConsistent(sha, w.mem.value[id]))
  }

  ghost predicate WritesConsistently(sha: string -> string, s: Step, id: string) {
    (s.InsertStep? || s.UpdateStep? || s.UpdateFromStep?) && s.record.id == id ==> PlanConsistent(sha, s.record)
  }

  /** What is left under `id` has the plan and digest of a copy that was there, or of the record
      written. */
  ghost predicate BoundAsBefore(m: Sets, disk: Sets, record: ChangeSet, after: Sets, id: string) {
    id in after ==>
      || (id in m && SameBinding(after[id], m[id]))
      || (id in disk && SameBinding(after[id], disk[id]))
      || (record.id == id && SameBinding(after[id], record))
  }

  lemma NormaliseKeepsPlan(r: ChangeSet)
    ensures SameBinding(Normalise(r), r) && Normalise(r).id == r.id
  {
  }

  lemma SweepKeepsPlans(m: Sets, now: nat, max: nat, id: string)
    ensures id in Evict(Sweep(m, now), max) ==> id in m && SameBinding(Evict(Sweep(m, now), max)[id], m[id])
    ensures id in UndoSweep(m, now, max) ==> id in m && SameBinding(UndoSweep(m, now, max)[id], m[id])
  {
    hide Due;
  }

  lemma AdmitBinds(cfg: Config, m: Sets, disk: Sets, r: ChangeSet, io: WriteResult, id: string)
    ensures var o := Admit(cfg, m, disk, r, io);
            BoundAsBefore(m, disk, r, o.mem, id) && BoundAsBefore(m, disk, r, o.disk, id)
  {
    hide Blocked;
  }

  lemma InsertBinds(cfg: Config, m: Sets, disk: Sets, record: ChangeSet, now: nat, sweepIo: WriteResult,
                    io: WriteResult, id: string)
    ensures var o := Insert(cfg, m, disk, record, now, sweepIo, io);
            BoundAsBefore(m, disk, record, o.mem, id) && BoundAsBefore(m, disk, record, o.disk, id)
  {
    hide Sweep, Evict, UndoSweep, Screen, Admit, Normalise;
    NormaliseKeepsPlan(record);
    SweepKeepsPlans(m, now, cfg.maxChangeSets, id);
    var swept := Evict(Sweep(m, now), cfg.maxChangeSets);
    AdmitBinds(cfg, m, disk, Normalise(record), io, id);
    AdmitBinds(cfg, swept, swept, Normalise(record), io, id);
  }

  lemma UpdateBinds(cfg: Config, m: Sets, disk: Sets, record: ChangeSet, io: WriteResult, id: string)
    ensures var o := Update(cfg, m, disk, record, io);
            BoundAsBefore(m, disk, record, o.mem, id) && BoundAsBefore(m, disk, record, o.disk, id)
  {
    hide CheckWrite, Normalise;
    NormaliseKeepsPlan(record);
  }

  lemma BoundIsConsistent(sha: string -> string, m: Sets, disk: Sets, record: ChangeSet, after: Sets, id: string)
    requires ConsistentIn(sha, World(Some(m), disk), id) && BoundAsBefore(m, disk, record, after, id)
    requires record.id == id ==> PlanConsistent(sha, record)
    ensures id in after ==> PlanConsistent(sha, after[id])
  {
    hide D.Preimage, D.Encodable;
  }

  lemma StaysConsistent(cfg: Config, sha: string -> string, w: World, s: Step, id: string)
    requires ConsistentIn(sha, w, id) && WritesConsistently(sha, s, id)
    ensures ConsistentIn(sha, Next(cfg, w, s), id)
  {
    hide D.Preimage, D.Encodable, Insert, Update, BoundAsBefore, CheckWrite;
    if !s.Crash? && !s.Load? && w.mem.Some? {
      var m := w.mem.value;
      var o := Act(cfg, m, w.disk, s);
      if s.InsertStep? || s.UpdateStep? || s.UpdateFromStep? {
        if s.InsertStep? {
          InsertBinds(cfg, m, w.disk, s.record, s.now, s.sweepIo, s.io, id);
        } else {
          UpdateBinds(cfg, m, w.disk, s.record, s.io, id);
        }
        if o != Outcome(m, w.disk, o.reply) {
          BoundIsConsistent(sha, m, w.disk, s.record, o.mem, id);
          BoundIsConsistent(sha, m, w.disk, s.record, o.disk, id);
        }
      }
    }
  }

  lemma {:induction false} PlansStayConsistent(cfg: Config, sha: string -> string, start: World, run: seq<Step>,
                                               id: string, i: nat, j: nat)
    requires i <= j <= |run| && ConsistentIn(sha, At(cfg, start, run, i), id)
    requires forall n :: i <= n < j ==> WritesConsistently(sha, run[n], id)
    ensures ConsistentIn(sha, At(cfg, start, run, j), id)
    decreases j
  {
    hide Next, ConsistentIn, WritesConsistently;
    if i < j {
      PlansStayConsistent(cfg, sha, start, run, id, i, j - 1);
      StaysConsistent(cfg, sha, At(cfg, start, run, j - 1), run[j - 1], id);
    }
  }

  /** If every write of `id` between an approval and a later reading carries the digest of its own plan,
      whether accepted or not, the plan read is the plan approved, through failed writes and restarts. */
  lemma PlanReadIsPlanApproved(cfg: Config, sha: string -> string, start: World, run: seq<Step>, id: string,
                               i: nat, j: nat)
    requires Inv(cfg, start) && Injective(sha) && i <= j <= |run|
    requires forall n :: i <= n <= j ==> id in View(At(cfg, start, run, n))
    requires ConsistentIn(sha, At(cfg, start, run, i), id)
    requires forall n :: i <= n < j ==> WritesConsistently(sha, run[n], id)
    ensures SamePlan(View(At(cfg, start, run, i))[id], View(At(cfg, start, run, j))[id])
  {
    PlansStayConsistent(cfg, sha, start, run, id, i, j);
    EvidenceIsStable(cfg, start, run, id, i, j);
    hide At, Inv, WritesConsistently, PlanConsistent;
    OneDigestOnePlan(sha, View(At(cfg, start, run, i))[id], View(At(cfg, start, run, j))[id]);
  }

  // ---- while the server is up ----------------------------------------------------------------

  predicate Accepted(cfg: Config, w: World, s: Step, id: string) {
    (s.UpdateStep? || s.UpdateFromStep?) && s.record.id == id && ReplyTo(cfg, w, s).Done?
  }

  lemma AcceptedIsStored(cfg: Config, w: World, s: Step, id: string)
    requires id in View(w) && Accepted(cfg, w, s, id)
    ensures CheckWrite(cfg, Some(View(w)[id]), Normalise(s.record), ByUpdate).Done?
    ensures id in View(Next(cfg, w, s)) && SamePlan(View(Next(cfg, w, s))[id], s.record)
  {
    NormaliseKeepsPlan(s.record);
    hide CheckWrite, Normalise;
  }

  lemma InsertKeepsPlan(cfg: Config, m: Sets, disk: Sets, record: ChangeSet, now: nat, sweepIo: WriteResult,
                        io: WriteResult, id: string)
    requires id in m && id in Insert(cfg, m, disk, record, now, sweepIo, io).mem
    ensures SameBinding(m[id], Insert(cfg, m, disk, record, now, sweepIo, io).mem[id])
  {
    hide Sweep, Evict, UndoSweep, Screen, Normalise, Blocked;
    NormaliseKeepsPlan(record);
    SweepKeepsPlans(m, now, cfg.maxChangeSets, id);
  }

  lemma OtherwiseKept(cfg: Config, w: World, s: Step, id: string)
    requires w.mem.Some? && !s.Crash? && id in View(w) && id in View(Next(cfg, w, s)) && !Accepted(cfg, w, s, id)
    ensures SameBinding(View(w)[id], View(Next(cfg, w, s))[id])
  {
    hide CheckWrite, Normalise, Insert;
    if s.InsertStep? {
      InsertKeepsPlan(cfg, w.mem.value, w.disk, s.record, s.now, s.sweepIo, s.io, id);
    } else if s.UpdateStep? || s.UpdateFromStep? {
      NormaliseKeepsPlan(s.record);
    }
  }

  /** The server is up and holds `id` from `i` to `j`. */
  ghost predicate HeldThroughout(cfg: Config, start: World, run: seq<Step>, id: string, i: nat, j: nat)
    requires j <= |run|
  {
    forall n :: i <= n <= j ==> At(cfg, start, run, n).mem.Some? && id in View(At(cfg, start, run, n))
  }

  /** One step keeps plan and consistency exactly when an accepted write is consistent. */
  lemma StepKeepsPlanIff(cfg: Config, sha: string -> string, w: World, s: Step, id: string)
    requires Injective(sha) && w.mem.Some? && Next(cfg, w, s).mem.Some?
    requires id in View(w) && id in View(Next(cfg, w, s)) && PlanConsistent(sha, View(w)[id])
    ensures SamePlan(View(w)[id], View(Next(cfg, w, s))[id])
            <==> (Accepted(cfg, w, s, id) ==> PlanConsistent(sha, s.record))
  {
    if Accepted(cfg, w, s, id) {
      AcceptedIsStored(cfg, w, s, id);
      PlanKeptIff(cfg, sha, View(w)[id], s.record);
    } else {
      OtherwiseKept(cfg, w, s, id);
    }
    hide Accepted, PlanConsistent, Next;
  }

  /** From `i` to `j` every reading of `id` gives the plan it had at `i`. */
  ghost predicate PlanUnmoved(cfg: Config, start: World, run: seq<Step>, id: string, i: nat, j: nat)
    requires i <= j <= |run| && HeldThroughout(cfg, start, run, id, i, j)
  {
    forall n :: i <= n <= j ==> SamePlan(View(At(cfg, start, run, i))[id], View(At(cfg, start, run, n))[id])
  }

  /** From `i` to `j` every accepted write of `id` carries the digest of the plan it writes. */
  ghost predicate WritesBound(cfg: Config, sha: string -> string, start: World, run: seq<Step>, id: string,
                              i: nat, j: nat)
    requires j <= |run|
  {
    forall n :: i <= n < j && Accepted(cfg, At(cfg, start, run, n), run[n], id) ==> PlanConsistent(sha, run[n].record)
  }

  lemma UnmovedIsConsistent(cfg: Config, sha: string -> string, start: World, run: seq<Step>, id: string,
                            i: nat, j: nat)
    requires Inv(cfg, start) && i <= j <= |run| && HeldThroughout(cfg, start, run, id, i, j)
    requires PlanConsistent(sha, View(At(cfg, start, run, i))[id]) && PlanUnmoved(cfg, start, run, id, i, j)
    ensures PlanConsistent(sha, View(At(cfg, start, run, j))[id])
  {
    hide At, Inv, D.Preimage, D.Encodable;
    EvidenceIsStable(cfg, start, run, id, i, j);
  }

  lemma UnmovedOneMore(cfg: Config, start: World, run: seq<Step>, id: string, i: nat, j: nat)
    requires i < j <= |run| && HeldThroughout(cfg, start, run, id, i, j)
    ensures PlanUnmoved(cfg, start, run, id, i, j)
            <==> && PlanUnmoved(cfg, start, run, id, i, j - 1)
                 && SamePlan(View(At(cfg, start, run, j - 1))[id], View(At(cfg, start, run, j))[id])
  {
    hide At, View;
    if PlanUnmoved(cfg, start, run, id, i, j) {
      assert SamePlan(View(At(cfg, start, run, i))[id], View(At(cfg, start, run, j - 1))[id]);
    }
  }

  lemma BoundOneMore(cfg: Config, sha: string -> string, start: World, run: seq<Step>, id: string, i: nat, j: nat)
    requires i < j <= |run|
    ensures WritesBound(cfg, sha, start, run, id, i, j)
            <==> && WritesBound(cfg, sha, start, run, id, i, j - 1)
                 && (Accepted(cfg, At(cfg, start, run, j - 1), run[j - 1], id) ==>
                       PlanConsistent(sha, run[j - 1].record))
  {
    hide At, Accepted, PlanConsistent;
  }

  lemma NothingMovedYet(cfg: Config, sha: string -> string, start: World, run: seq<Step>, id: string, i: nat)
    requires i <= |run| && HeldThroughout(cfg, start, run, id, i, i)
    ensures PlanUnmoved(cfg, start, run, id, i, i) && WritesBound(cfg, sha, start, run, id, i, i)
  {
    hide At, View;
  }

  lemma HeldBefore(cfg: Config, start: World, run: seq<Step>, id: string, i: nat, j: nat)
    requires i < j <= |run| && HeldThroughout(cfg, start, run, id, i, j)
    ensures HeldThroughout(cfg, start, run, id, i, j - 1)
    ensures id in View(At(cfg, start, run, i)) && id in View(At(cfg, start, run, j - 1))
    ensures id in View(At(cfg, start, run, j))
  {
    hide At, View;
  }

  lemma LastStepKeepsPlanIff(cfg: Config, sha: string -> string, start: World, run: seq<Step>, id: string,
                             i: nat, j: nat)
    requires Inv(cfg, start) && Injective(sha) && i < j <= |run| && HeldThroughout(cfg, start, run, id, i, j)
    requires HeldThroughout(cfg, start, run, id, i, j - 1) && PlanUnmoved(cfg, start, run, id, i, j - 1)
    requires PlanConsistent(sha, View(At(cfg, start, run, i))[id])
    ensures SamePlan(View(At(cfg, start, run, j - 1))[id], View(At(cfg, start, run, j))[id])
            <==> (Accepted(cfg, At(cfg, start, run, j - 1), run[j - 1], id) ==>
                    PlanConsistent(sha, run[j - 1].record))
  {
    hide Inv, Next, View, PlanConsistent, Accepted, PlanUnmoved, SamePlan;
    var w := At(cfg, start, run, j - 1);
    UnmovedIsConsistent(cfg, sha, start, run, id, i, j - 1);
    assert At(cfg, start, run, j) == Next(cfg, w, run[j - 1]) && At(cfg, start, run, j).mem.Some?;
    StepKeepsPlanIff(cfg, sha, w, run[j - 1], id);
  }

  /** While the server holds the record, its plan never moves exactly when every accepted write of it
      carries the digest of the plan it writes. */
  lemma {:induction false} PlanNeverMovesIff(cfg: Config, sha: string -> string, start: World, run: seq<Step>,
                                             id: string, i: nat, j: nat)
    requires Inv(cfg, start) && Injective(sha) && i <= j <= |run| && HeldThroughout(cfg, start, run, id, i, j)
    requires PlanConsistent(sha, View(At(cfg, start, run, i))[id])
    ensures PlanUnmoved(cfg, start, run, id, i, j) <==> WritesBound(cfg, sha, start, run, id, i, j)
    decreases j
  {
    hide At, Inv, View, PlanConsistent, Accepted, HeldThroughout, PlanUnmoved, WritesBound;
    if i == j {
      NothingMovedYet(cfg, sha, start, run, id, i);
    } else {
      HeldBefore(cfg, start, run, id, i, j);
      PlanNeverMovesIff(cfg, sha, start, run, id, i, j - 1);
      UnmovedOneMore(cfg, start, run, id, i, j);
      BoundOneMore(cfg, sha, start, run, id, i, j);
      if PlanUnmoved(cfg, start, run, id, i, j - 1) {
        LastStepKeepsPlanIff(cfg, sha, start, run, id, i, j);
      }
    }
  }
}
