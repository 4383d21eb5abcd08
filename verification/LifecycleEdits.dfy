/** What approve, waive, status and cancel decide from the copy of a record they read,
    and the write each then asks the coordinator for. */
module LifecycleEdits {
  import opened Lifecycle
  import opened Text
  import opened Records
  import opened WriteGate
  import opened ChangeSetStore
  import opened ChangeSetProtocol
  import opened SmallRuns

  datatype Actor = Human | Agent | UnknownActor

  /** The decision, and the record to write if any. The write is conditional on the state read. */
  datatype Edit = Edit(reply: Reply, write: Option<ChangeSet>)

  function Deny(why: Refusal): Edit {
    Edit(Refused(why), None)
  }

  function Expire(r: ChangeSet): Edit {
    Edit(Refused(WindowClosed), Some(r.(state := Expired)))
  }

  /** `sign` is the approval digest over the copy's fields; version 6 when keyed, else 5. */
  function Approve(cfg: Config, r: ChangeSet, approver: string, actor: Actor, expected: string, now: nat,
                   keyed: bool, sign: (string, string, Option<string>, string, string, nat) -> string): Edit
  {
    if !ValidDigest(expected) then Deny(DigestMismatch)
    else if r.owner == approver then Deny(SelfApproval)
    else if !actor.Human? then Deny(NotHuman)
    else if !r.state.Planned? then Deny(NotPlanned)
    else if now >= r.expiresAt then Expire(r)
    else if r.digest != expected then Deny(DigestMismatch)
    else if '|' in r.owner || '|' in approver then Deny(BarInPrincipal)
    else if !PreviewConsistent(cfg, r) then Deny(BadPreview)
    else
      var digest := sign(r.id, r.digest, PreviewDigestOf(r), r.owner, approver, now);
      var approval := Approval(Some(approver), now, digest, if keyed then 6 else 5, None);
      Edit(Done, Some(r.(state := Approved, approver := Some(approver), approval := Some(approval))))
  }

  /** Both waivers: lab mode (`kind` lab mode, no expiry, no ticket) and an operator's. */
  function Waive(labMode: bool, r: ChangeSet, owner: string, expected: string, now: nat, waiver: Waiver,
                 digest: string): Edit
  {
    if waiver.kind.LabMode? && !labMode then Deny(LabModeOff)
    else if !ValidDigest(expected) then Deny(DigestMismatch)
    else if r.owner != owner then Deny(NotOwner)
    else if !r.state.Planned? then Deny(NotPlanned)
    else if now >= r.expiresAt then Expire(r)
    else if r.digest != expected then Deny(DigestMismatch)
    else if waiver.expiresAt.Some? && waiver.expiresAt.value <= now then Deny(WaiverPast)
    else
      var approval := Approval(None, now, digest, 4, Some(waiver));
      Edit(Done, Some(r.(state := Approved, approver := None, approval := Some(approval))))
  }

  function Status(r: ChangeSet, now: nat): Edit {
    if (r.state.Planned? && now >= r.expiresAt) || (IsExpirable(r.state) && WaiverLapsed(r, now))
    then Edit(Done, Some(r.(state := Expired)))
    else Edit(Done, None)
  }

  function Cancel(r: ChangeSet, principal: string): Edit {
    if r.state.Cancelled? then Edit(Done, None)
    else if r.owner != principal && r.approver != Some(principal) then Deny(NotOwner)
    else if r.state.Applying? || r.state.Applied? then Deny(NotCancellable)
    else Edit(Done, Some(r.(state := Cancelled)))
  }

  predicate PassesGate(cfg: Config, r: ChangeSet, e: Edit) {
    e.write.Some? ==> CheckWrite(cfg, Some(r), Normalise(e.write.value), ByUpdate).Done?
  }

  /** On a record that has not moved, the gate accepts exactly the approvals that are the
      record's first genuine one or repeat it word for word; what is then stored was decided
      by another human, in time, on the exact plan, over the exact stored preview. */
  lemma ApproveIsAccepted(cfg: Config, r: ChangeSet, approver: string, actor: Actor, expected: string, now: nat,
                          keyed: bool, sign: (string, string, Option<string>, string, string, nat) -> string)
    requires RecordOk(cfg, r)
    ensures var e := Approve(cfg, r, approver, actor, expected, now, keyed, sign);
            && (e.reply.Done? <==>
                  && ValidDigest(expected) && expected == r.digest && r.state.Planned? && now < r.expiresAt
                  && actor.Human? && approver != r.owner && '|' !in r.owner && '|' !in approver)
            && (e.reply.Done? ==>
                  && e.write.Some? && BindsPreview(e.write.value)
                  && e.write.value.approval.Some?
                  && var a := e.write.value.approval.value;
                  && e.write.value == r.(state := Approved, approver := Some(approver), approval := Some(a))
                  && a.approver == Some(approver) && a.approvedAt == now && a.waived.None?
                  && a.digestVersion == (if keyed then 6 else 5)
                  && a.digest == sign(r.id, r.digest, PreviewDigestOf(r), r.owner, approver, now)
                  && (PassesGate(cfg, r, e) <==> (Genuine(r) ==> r.approval == e.write.value.approval)))
            && (e.reply.Refused? ==> PassesGate(cfg, r, e))
            && (e.reply.Refused? && e.write.Some? ==>
                  r.state.Planned? && now >= r.expiresAt && e.write.value == r.(state := Expired))
  {
  }

  /** A waiver never replaces a genuine approval; otherwise it is accepted, and it names no approver. */
  lemma WaiveIsAccepted(cfg: Config, labMode: bool, r: ChangeSet, owner: string, expected: string, now: nat,
                        waiver: Waiver, digest: string)
    requires RecordOk(cfg, r)
    ensures var e := Waive(labMode, r, owner, expected, now, waiver, digest);
            && (e.reply.Done? <==>
                  && (waiver.kind.LabMode? ==> labMode) && ValidDigest(expected) && expected == r.digest
                  && owner == r.owner && r.state.Planned? && now < r.expiresAt
                  && (waiver.expiresAt.Some? ==> now < waiver.expiresAt.value))
            && (e.reply.Done? ==>
                  && e.write.Some? && !Genuine(e.write.value) && !WaiverLapsed(e.write.value, now)
                  && e.write.value == r.(state := Approved, approver := None,
                                         approval := Some(Approval(None, now, digest, 4, Some(waiver))))
                  && (PassesGate(cfg, r, e) <==> !Genuine(r)))
            && (e.reply.Refused? ==> PassesGate(cfg, r, e))
  {
  }

  /** Retiring and cancelling are always accepted and change nothing but the state; a cancel goes
      through exactly for the owner or the approver, from exactly the states the table allows. */
  lemma RetireAndCancelAreAccepted(cfg: Config, r: ChangeSet, now: nat, principal: string)
    requires RecordOk(cfg, r)
    ensures PassesGate(cfg, r, Status(r, now)) && PassesGate(cfg, r, Cancel(r, principal))
    ensures Cancel(r, principal).write.Some? <==>
              && (principal == r.owner || r.approver == Some(principal))
              && TransitionAllowed(r.state, Cancelled) && !r.state.Cancelled?
    ensures Cancel(r, principal).write.Some? ==> Cancel(r, principal).write.value == r.(state := Cancelled)
    ensures Status(r, now).write.Some? ==> Status(r, now).write.value == r.(state := Expired)
    ensures Status(r, now).write.Some? <==>
              || (r.state.Planned? && now >= r.expiresAt)
              || ((r.state.Planned? || r.state.Approved?) && WaiverLapsed(r, now))
    ensures Cancel(r, principal).reply.Done? <==> r.state.Cancelled? || Cancel(r, principal).write.Some?
  {
  }

  // ---- undoing a sweep whose persist failed -------------------------------

  /** A failed sweep leaves memory as it found it exactly when nothing was due or the store
      was below capacity; at capacity a retired record is evicted in the same breath and
      comes back `Expired`, though the file may still call it approved. */
  lemma SweepUndoneExactly(m: Sets, now: nat, max: nat)
    ensures UndoSweep(m, now, max) == m
            <==> |m| < max || forall id :: id in m ==> !Due(m[id], now)
  {
    hide WaiverLapsed;
    if UndoSweep(m, now, max) == m && |m| >= max {
      forall id | id in m ensures !Due(m[id], now) {
        assert Sweep(m, now)[id] == m[id];
      }
    }
    if forall id :: id in m ==> !Due(m[id], now) {
      assert Sweep(m, now) == m;
    }
  }

  /** Planned; then, past its deadline, another insert whose sweep cannot be written. */
  function UnsweptRun(id: string, digest: string, other: ChangeSet, io: WriteResult): seq<Step> {
    [InsertStep(NewPlan(id, digest), 0, Durable, Durable), InsertStep(other, 100, FailedOld, io)]
  }

  /** With room for one change set, memory has it expired while the file still has it planned. */
  lemma SweepUndoFails(cfg: Config, id: string, digest: string, other: ChangeSet, io: WriteResult)
    requires cfg.maxChangeSets == 1 && Screen(cfg, other).Done? && other.id != id
    ensures var run := UnsweptRun(id, digest, other, io);
            var plan := NewPlan(id, digest);
            && Inv(cfg, EMPTY) && At(cfg, EMPTY, run, 1) == Holding(plan) && Due(plan, 100)
            && ReplyTo(cfg, Holding(plan), run[1]) == Refused(PersistFailed)
            && At(cfg, EMPTY, run, 2) == World(Some(map[id := plan.(state := Expired)]), map[id := plan])
  {
    var run := UnsweptRun(id, digest, other, io);
    var m := map[id := NewPlan(id, digest)];
    PlanIsStored(cfg, id, digest);
    assert At(cfg, EMPTY, run, 1) == Next(cfg, EMPTY, run[0]);
    assert Sweep(m, 100) == map[id := NewPlan(id, digest).(state := Expired)];
    assert id !in Evict(Sweep(m, 100), 1);
    assert At(cfg, EMPTY, run, 2) == Next(cfg, Holding(NewPlan(id, digest)), run[1]);
  }
}
