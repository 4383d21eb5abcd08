/** The single check every change-set write passes through. */
module WriteGate {
  import opened Lifecycle
  import opened Text
  import opened Records

  datatype WriteVia = ByUpdate | ByClaim

  function CheckWrite(cfg: Config, current: Option<ChangeSet>, next: ChangeSet, via: WriteVia): Reply {
    match current
    case None => Refused(Unknown)
    case Some(c) =>
      if next.owner != c.owner || next.device != c.device || next.digest != c.digest then
        Refused(IdentityFixed)
      else if c.state.Approved? && next.state.Applying? then
        if via.ByClaim? then Done else Refused(ClaimOnly)
      else if !PreviewConsistent(cfg, next) then
        Refused(BadPreview)
      else if Genuine(c) && next.approval != c.approval then
        Refused(ApprovalFixed)
      else if c.approval.Some? && c.approval.value.digestVersion >= 5
              && PreviewDigestOf(next) != PreviewDigestOf(c) then
        Refused(PreviewBound)
      else if SelfApproved(next) then
        Refused(SelfApproval)
      else if !TransitionAllowed(c.state, next.state) then
        Refused(ForbiddenTransition)
      else if c.state.Applying? && next.state.Applying? && c.applyWithoutHandle && !next.applyWithoutHandle then
        Refused(MarkerCleared)
      else Done
  }

  /** The owner is not named as approver. */
  predicate NotByOwner(r: ChangeSet) {
    r.approver != Some(r.owner) && (r.approval.Some? ==> r.approval.value.approver != Some(r.owner))
  }

  /** An update is let through exactly if it keeps owner, device and digest, does not perform the claim,
      stays where it is or moves along the table, is not approved by its owner, carries no preview but
      one of its own text, and takes away neither a second person's approval, nor the preview an approval
      covers, nor the mark that an apply in flight has no handle. */
  lemma GateIsExact(cfg: Config, c: ChangeSet, n: ChangeSet)
    ensures CheckWrite(cfg, Some(c), n, ByUpdate).Done? <==>
              && n.owner == c.owner && n.device == c.device && n.digest == c.digest
              && (c.state == n.state || (c.state, n.state) in MOVES) && NotByOwner(n)
              && (n.preview.Some? ==>
                    && ValidDigest(n.preview.value.digest)
                    && n.preview.value.digest == cfg.previewDigest(n.preview.value.artifact))
              && (c.approval.Some? && c.approval.value.approver.Some? ==> n.approval == c.approval)
              && (c.approval.Some? && c.approval.value.digestVersion >= 5 ==>
                    && (n.preview.Some? <==> c.preview.Some?)
                    && (n.preview.Some? ==> n.preview.value.digest == c.preview.value.digest))
              && (c.state.Applying? && n.state.Applying? && c.applyWithoutHandle ==> n.applyWithoutHandle)
    ensures CheckWrite(cfg, None, n, ByUpdate).Refused?
  {
    TableIs(c.state, n.state);
    hide TransitionAllowed, ValidDigest;
    assert (Approved, Applying) !in MOVES;
  }

  /** What a record keeps through every write: who planned what for which device, and, once
      a second principal has approved it, that approval and the preview it covers. */
  predicate Carries(c: ChangeSet, n: ChangeSet) {
    && n.owner == c.owner && n.device == c.device && n.digest == c.digest
    && (Genuine(c) ==> n.approval == c.approval)
    && (BindsPreview(c) ==> PreviewDigestOf(n) == PreviewDigestOf(c))
  }

  /** A record the store may hold. */
  predicate RecordOk(cfg: Config, r: ChangeSet) {
    && !SelfApproved(r)
    && r.taskId != Some("")
    && (r.applyWithoutHandle ==> r.state.Applying?)
    && PreviewConsistent(cfg, r)
  }

  /** An accepted update leaves a well-formed record that carries the stored one's evidence
      and moves along the table; it never performs the claim. */
  lemma UpdateKeepsEvidence(cfg: Config, c: ChangeSet, next: ChangeSet)
    requires CheckWrite(cfg, Some(c), Normalise(next), ByUpdate).Done?
    ensures RecordOk(cfg, Normalise(next))
    ensures Carries(c, Normalise(next))
    ensures TransitionAllowed(c.state, next.state)
    ensures c.applyWithoutHandle && c.state.Applying? && next.state.Applying? ==> next.applyWithoutHandle
  {
  }

  /** What the claim writes over an approved record. */
  function Claimed(c: ChangeSet, handle: ApplyHandle): ChangeSet {
    c.(state := Applying, applyWithoutHandle := handle.NoHandle?)
  }

  /** With an injective preview digest, a bound preview's text is frozen too. */
  lemma BoundTextIsFrozen(cfg: Config, c: ChangeSet, n: ChangeSet)
    requires forall a, b :: cfg.previewDigest(a) == cfg.previewDigest(b) ==> a == b
    requires BindsPreview(c) && Carries(c, n) && RecordOk(cfg, c) && RecordOk(cfg, n)
    ensures c.preview.Some? <==> n.preview.Some?
    ensures c.preview.Some? ==> n.preview.value.artifact == c.preview.value.artifact
  {
    if c.preview.Some? {
      assert cfg.previewDigest(c.preview.value.artifact) == cfg.previewDigest(n.preview.value.artifact);
    }
  }
}
