/** What an apply checks before it claims a change set, and that it claims what it checked. */
module ApplyGate {
  import opened Lifecycle
  import opened Text
  import opened Records
  import opened WriteGate
  import opened ChangeSetStore
  import opened ChangeSetProtocol
  import opened ChangeSetTheorems
  import opened LifecycleEdits
  import opened SmallRuns
  import opened Admission

  /** What the caller of an apply presents. */
  datatype Request = Request(owner: string, digest: string, fingerprint: string)

  /** Somebody stands behind the approval, and it is not the owner. */
  function CheckApproval(r: ChangeSet, labMode: bool): Reply {
    match r.approval
    case Some(a) =>
      if a.approver.None? && a.waived.None? then Refused(NotApproved)
      else if a.approver == Some(r.owner) then Refused(SelfApproval)
      else if a.waived.Some? && !labMode then Refused(LabModeOff)
      else Done
    case None =>
      if r.approver.None? then Refused(NotApproved)
      else if r.approver == Some(r.owner) then Refused(SelfApproval)
      else Done
  }

  /** Before waiting for the device guard. */
  function CheckBefore(r: ChangeSet, q: Request, labMode: bool, now: nat): Reply {
    if r.owner != q.owner then Refused(NotOwner)
    else if !r.state.Approved? then Refused(NotApproved)
    else if WaiverLapsed(r, now) then Refused(WaiverPast)
    else if CheckApproval(r, labMode).Refused? then CheckApproval(r, labMode)
    else if now >= r.expiresAt then Refused(WindowClosed)
    else if r.digest != q.digest || r.plan.fingerprint != q.fingerprint then Refused(DigestMismatch)
    else Done
  }

  /** With the guard held, on the record read again; who approved it is not looked at again. */
  function CheckAfter(r: ChangeSet, q: Request, now: nat): Reply {
    if r.owner != q.owner || !r.state.Approved? || r.digest != q.digest || r.plan.fingerprint != q.fingerprint
    then Refused(DigestMismatch)
    else if WaiverLapsed(r, now) then Refused(WaiverPast)
    else if now >= r.expiresAt then Refused(WindowClosed)
    else Done
  }

  /** Somebody other than the owner approved, or, in lab mode only, it was waived. */
  predicate Backed(r: ChangeSet, labMode: bool) {
    if r.approval.None? then r.approver.Some? && r.approver.value != r.owner
    else
      var a := r.approval.value;
      && (a.approver.Some? || a.waived.Some?) && a.approver != Some(r.owner)
      && (a.waived.Some? ==> labMode)
  }

  /** The first reading lets an apply through exactly if the change set is the caller's, approved, in time,
      backed, and of the digest and fingerprint the caller names; the second asks all of that again but
      the backing. */
  lemma ChecksAreExact(r: ChangeSet, q: Request, labMode: bool, now: nat)
    ensures CheckAfter(r, q, now).Done? <==>
              && r.owner == q.owner && r.state.Approved? && InTime(r, now)
              && r.digest == q.digest && r.plan.fingerprint == q.fingerprint
    ensures CheckBefore(r, q, labMode, now).Done? <==> CheckAfter(r, q, now).Done? && Backed(r, labMode)
  {
  }

  /** Neither reading a status nor the sweep before an insert ever retires a change set that an
      apply would still accept at that moment. */
  lemma NothingApplicableIsRetired(r: ChangeSet, q: Request, labMode: bool, now: nat)
    requires CheckBefore(r, q, labMode, now).Done? || CheckAfter(r, q, now).Done?
    ensures Status(r, now).write.None? && !Due(r, now)
  {
  }

  /** The server stays up, and `id` is not brought back after it has left the store. */
  ghost predicate Undisturbed(cfg: Config, start: World, run: seq<Step>, id: string, i: nat, k: nat)
    requires k <= |run|
  {
    forall n :: i <= n < k ==> !run[n].Crash? && !Appears(At(cfg, start, run, n), At(cfg, start, run, n + 1), id)
  }

  predicate Appears(w: World, n: World, id: string) {
    id !in View(w) && id in View(n)
  }

  lemma {:induction false} PresentThroughout(cfg: Config, start: World, run: seq<Step>, id: string,
                                             i: nat, n: nat, k: nat)
    requires i <= n <= k <= |run|
    requires Undisturbed(cfg, start, run, id, i, k) && id in View(At(cfg, start, run, k))
    ensures id in View(At(cfg, start, run, n))
    decreases k - n
  {
    hide At, View;
    if n < k {
      PresentThroughout(cfg, start, run, id, i, n + 1, k);
      assert !Appears(At(cfg, start, run, n), At(cfg, start, run, n + 1), id);
    }
  }

  /** An apply reads and checks the record at `i`, reads and checks it again under the guard at `j`,
      and claims it at `k`, with any calls of others in between, while the server stays up and the id
      is not inserted afresh. What it claims was approved all along, is the caller's, has the plan
      digest the caller named and is not self-approved, although the claim itself compares only the
      state and the device. If a second person approved it, it carries the very approval that was
      checked, and would pass the check again. Whether the actions are still those the digest was
      computed over is the subject of `PlanBinding`. */
  lemma ApplyClaimsWhatItChecked(cfg: Config, start: World, run: seq<Step>, id: string, i: nat, j: nat, k: nat,
                                 q: Request, labMode: bool, before: nat, after: nat)
    requires Inv(cfg, start) && i <= j <= k < |run|
    requires Undisturbed(cfg, start, run, id, i, k)
    requires id in View(At(cfg, start, run, i)) && id in View(At(cfg, start, run, j))
    requires CheckBefore(View(At(cfg, start, run, i))[id], q, labMode, before).Done?
    requires CheckAfter(View(At(cfg, start, run, j))[id], q, after).Done?
    requires ClaimSucceeds(cfg, At(cfg, start, run, k), run[k], id)
    ensures id in View(At(cfg, start, run, k))
    ensures var checked := View(At(cfg, start, run, i))[id];
            var claimed := View(At(cfg, start, run, k))[id];
            && claimed.owner == q.owner && claimed.digest == q.digest && !SelfApproved(claimed)
            && (Genuine(checked) ==> claimed.approval == checked.approval && CheckApproval(claimed, labMode).Done?)
            && (BindsPreview(checked) ==> PreviewDigestOf(claimed) == PreviewDigestOf(checked))
    ensures forall n :: i <= n <= k ==>
              id in View(At(cfg, start, run, n)) && View(At(cfg, start, run, n))[id].state.Approved?
  {
    ClaimFindsApproved(cfg, At(cfg, start, run, k), run[k], id);
    hide Inv, Next, View, ClaimSucceeds, CheckAfter;
    forall n | i <= n <= k ensures id in View(At(cfg, start, run, n)) {
      PresentThroughout(cfg, start, run, id, i, n, k);
    }
    EvidenceIsStable(cfg, start, run, id, i, k);
    NotSelfApproved(cfg, start, run, id, k);
    forall n | i <= n <= k ensures View(At(cfg, start, run, n))[id].state.Approved? {
      SameStateMeansNeverLeft(cfg, start, run, id, i, n, k);
    }
  }

  lemma ClaimFindsApproved(cfg: Config, w: World, s: Step, id: string)
    requires ClaimSucceeds(cfg, w, s, id)
    ensures id in View(w) && View(w)[id].state.Approved?
  {
  }

  lemma NotSelfApproved(cfg: Config, start: World, run: seq<Step>, id: string, k: nat)
    requires Inv(cfg, start) && k <= |run| && id in View(At(cfg, start, run, k))
    ensures !SelfApproved(View(At(cfg, start, run, k))[id])
  {
    EveryReachableStoreIsOk(cfg, start, run, k);
    hide At;
  }

  // ---- who stands behind what is claimed ------------------------------------------------

  /** If a write over `c` is accepted and leaves it approved, the approval still passes the check. */
  predicate StaysBacked(cfg: Config, c: ChangeSet, labMode: bool, m: Sets, disk: Sets, n: ChangeSet) {
    var o := Update(cfg, m, disk, n, Durable);
    c.id in m && m[c.id] == c && n.id == c.id && o.reply.Done? && c.id in o.mem && o.mem[c.id].state.Approved?
    ==> CheckApproval(o.mem[c.id], labMode).Done?
  }

  ghost predicate AlwaysBacked(cfg: Config, c: ChangeSet, labMode: bool) {
    forall m: Sets, disk: Sets, n: ChangeSet :: StaysBacked(cfg, c, labMode, m, disk, n)
  }

  /** The second reading does not ask again who approved. The approval check still passes after every
      accepted write exactly when a second person approved; a waiver or a legacy approval can be taken
      away between the readings. */
  lemma ApprovalOutlastsWritesIff(cfg: Config, c: ChangeSet, labMode: bool)
    requires RecordOk(cfg, c) && c.state.Approved? && CheckApproval(c, labMode).Done?
    ensures AlwaysBacked(cfg, c, labMode) <==> Genuine(c)
  {
    if Genuine(c) {
      forall m: Sets, disk: Sets, n: ChangeSet ensures StaysBacked(cfg, c, labMode, m, disk, n) {
        GenuineStaysBacked(cfg, c, labMode, m, disk, n);
      }
    } else {
      UnbackedIsAccepted(cfg, c, labMode);
      assert !StaysBacked(cfg, c, labMode, map[c.id := c], map[c.id := c], c.(approver := None, approval := None));
    }
  }

  lemma GenuineStaysBacked(cfg: Config, c: ChangeSet, labMode: bool, m: Sets, disk: Sets, n: ChangeSet)
    requires Genuine(c) && CheckApproval(c, labMode).Done?
    ensures StaysBacked(cfg, c, labMode, m, disk, n)
  {
    if c.id in m && m[c.id] == c && n.id == c.id && CheckWrite(cfg, Some(c), Normalise(n), ByUpdate).Done? {
      UpdateKeepsEvidence(cfg, c, n);
    }
    hide CheckWrite;
  }

  lemma UnbackedIsAccepted(cfg: Config, c: ChangeSet, labMode: bool)
    requires RecordOk(cfg, c) && c.state.Approved? && !Genuine(c)
    ensures var m := map[c.id := c];
            var o := Update(cfg, m, m, c.(approver := None, approval := None), Durable);
            o.reply.Done? && o.mem[c.id].state.Approved? && CheckApproval(o.mem[c.id], labMode).Refused?
  {
  }

  const WAIVER := Waiver(LabMode, "lab", None, None)

  /** Planned and waived in lab mode; checked by an apply; the approval erased by an update; checked
      again, and claimed. */
  function UnbackedRun(id: string, digest: string, now: nat): seq<Step> {
    var waived := WaivedPlan(id, digest, now);
    [InsertStep(NewPlan(id, digest), 0, Durable, Durable), UpdateFromStep(Planned, waived, Durable),
     UpdateStep(waived.(approval := None), Durable), ClaimStep(id, "fw-01", Expected, Durable)]
  }

  function WaivedPlan(id: string, digest: string, now: nat): ChangeSet {
    var e := Waive(true, NewPlan(id, digest), "alice", digest, now, WAIVER, "");
    if e.write.Some? then e.write.value else NewPlan(id, digest)
  }

  lemma AWaiverCanBeGoneWhenClaimed(cfg: Config, id: string, digest: string, now: nat)
    requires cfg.maxChangeSets > 0 && ValidId(id) && ValidDigest(digest) && now < 100
    ensures var run := UnbackedRun(id, digest, now);
            var q := Request("alice", digest, "");
            var waived := WaivedPlan(id, digest, now);
            && Inv(cfg, EMPTY)
            && At(cfg, EMPTY, run, 2) == Holding(waived) && CheckBefore(waived, q, true, now).Done?
            && At(cfg, EMPTY, run, 3) == Holding(waived.(approval := None))
            && CheckAfter(waived.(approval := None), q, now).Done?
            && ClaimSucceeds(cfg, At(cfg, EMPTY, run, 3), run[3], id)
            && CheckApproval(waived.(approval := None), true).Refused?
  {
    var run := UnbackedRun(id, digest, now);
    var seen := NewPlan(id, digest);
    var waived := WaivedPlan(id, digest, now);
    var bare := waived.(approval := None);
    assert CheckWrite(cfg, Some(seen), waived, ByUpdate).Done? && CheckWrite(cfg, Some(waived), bare, ByUpdate).Done?;
    assert ReplyTo(cfg, Holding(bare), ClaimStep(id, "fw-01", Expected, Durable)).Done?;
    hide Next, ReplyTo, CheckWrite, Waive;
    PlanIsStored(cfg, id, digest);
    WriteIsStored(cfg, seen, waived);
    WriteIsStored(cfg, waived, bare);
    assert At(cfg, EMPTY, run, 1) == Next(cfg, EMPTY, run[0]);
    assert At(cfg, EMPTY, run, 2) == Next(cfg, Holding(seen), run[1]);
    assert At(cfg, EMPTY, run, 3) == Next(cfg, Holding(waived), run[2]);
  }
}
