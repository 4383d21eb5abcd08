/** What the compare-and-set on a change set does not notice, and exactly when nothing is lost by it. */
module StaleCopies {
  import opened Lifecycle
  import opened Text
  import opened Records
  import opened WriteGate
  import opened ChangeSetStore
  import opened ChangeSetProtocol
  import opened LifecycleEdits
  import opened SmallRuns

  /** If the compare-and-set lets `n` through over `c`, the preview digest is the same after it. */
  predicate KeepsPreview(cfg: Config, c: ChangeSet, m: Sets, disk: Sets, n: ChangeSet) {
    var o := UpdateFrom(cfg, m, disk, c.state, n, Durable);
    c.id in m && m[c.id] == c && n.id == c.id && o.reply.Done?
    ==> c.id in o.mem && PreviewDigestOf(o.mem[c.id]) == PreviewDigestOf(c)
  }

  ghost predicate PreviewSurvives(cfg: Config, c: ChangeSet) {
    forall m: Sets, disk: Sets, n: ChangeSet :: KeepsPreview(cfg, c, m, disk, n)
  }

  /** The compare-and-set compares only the state, so a copy read before a preview was attached can be
      written back after. The preview survives every such write exactly when an approval already
      binds previews. */
  lemma PreviewSurvivesIff(cfg: Config, c: ChangeSet)
    requires RecordOk(cfg, c) && c.preview.Some?
    ensures PreviewSurvives(cfg, c) <==> c.approval.Some? && c.approval.value.digestVersion >= 5
  {
    if c.approval.Some? && c.approval.value.digestVersion >= 5 {
      forall m: Sets, disk: Sets, n: ChangeSet ensures KeepsPreview(cfg, c, m, disk, n) {
        BoundPreviewSurvives(cfg, c, m, disk, n);
      }
    } else {
      StrippedIsAccepted(cfg, c);
      assert !KeepsPreview(cfg, c, map[c.id := c], map[c.id := c], c.(preview := None));
    }
  }

  lemma BoundPreviewSurvives(cfg: Config, c: ChangeSet, m: Sets, disk: Sets, n: ChangeSet)
    requires c.approval.Some? && c.approval.value.digestVersion >= 5
    ensures KeepsPreview(cfg, c, m, disk, n)
  {
  }

  /** The copy without its preview is written back over the record. */
  lemma StrippedIsAccepted(cfg: Config, c: ChangeSet)
    requires RecordOk(cfg, c) && c.preview.Some?
    requires c.approval.Some? ==> c.approval.value.digestVersion < 5
    ensures var m := map[c.id := c];
            var o := UpdateFrom(cfg, m, m, c.state, c.(preview := None), Durable);
            o.reply.Done? && PreviewDigestOf(o.mem[c.id]).None?
  {
  }

  // ---- a run in which approving loses the preview -------------------------------------

  /** What an approver who read `seen` writes. */
  function ApprovedFrom(cfg: Config, seen: ChangeSet, approver: string, now: nat,
                     sign: (string, string, Option<string>, string, string, nat) -> string): ChangeSet
  {
    var e := Approve(cfg, seen, approver, Human, seen.digest, now, false, sign);
    if e.write.Some? then e.write.value else seen
  }

  /** Planned; a preview attached; then approved by someone who read the plan before that. */
  function LosingRun(cfg: Config, id: string, digest: string, p: Preview, approver: string, now: nat,
                     sign: (string, string, Option<string>, string, string, nat) -> string): seq<Step>
  {
    var seen := NewPlan(id, digest);
    [InsertStep(seen, 0, Durable, Durable), UpdateStep(seen.(preview := Some(p)), Durable),
     UpdateFromStep(Planned, ApprovedFrom(cfg, seen, approver, now, sign), Durable)]
  }

  lemma LosingWrites(cfg: Config, id: string, digest: string, p: Preview, approver: string, now: nat,
                     sign: (string, string, Option<string>, string, string, nat) -> string)
    requires ValidDigest(p.digest) && cfg.previewDigest(p.artifact) == p.digest
    requires ValidDigest(digest) && approver != "alice" && '|' !in approver && now < 100
    ensures var seen := NewPlan(id, digest);
            var shown := seen.(preview := Some(p));
            var lost := ApprovedFrom(cfg, seen, approver, now, sign);
            && lost == seen.(
                 state := Approved, approver := Some(approver),
                 approval := Some(Approval(
                                    Some(approver), now, sign(id, digest, None, "alice", approver, now), 5, None)))
            && Normalise(shown) == shown && Normalise(lost) == lost
            && CheckWrite(cfg, Some(seen), shown, ByUpdate).Done? && CheckWrite(cfg, Some(shown), lost, ByUpdate).Done?
  {
  }

  /** The approval that ends up stored is of version 5 and signs the absence of a preview that was
      there: what it covers is not what was on record when it was written. */
  lemma StaleCopyErasesPreview(cfg: Config, id: string, digest: string, p: Preview, approver: string, now: nat,
                               sign: (string, string, Option<string>, string, string, nat) -> string)
    requires cfg.maxChangeSets > 0 && ValidDigest(p.digest) && cfg.previewDigest(p.artifact) == p.digest
    requires ValidDigest(digest) && approver != "alice" && '|' !in approver && now < 100
    ensures var run := LosingRun(cfg, id, digest, p, approver, now, sign);
            var lost := NewPlan(id, digest).(
              state := Approved, approver := Some(approver),
              approval := Some(Approval(Some(approver), now, sign(id, digest, None, "alice", approver, now), 5, None)));
            && Inv(cfg, EMPTY)
            && At(cfg, EMPTY, run, 2) == Holding(NewPlan(id, digest).(preview := Some(p)))
            && ReplyTo(cfg, At(cfg, EMPTY, run, 2), run[2]).Done?
            && At(cfg, EMPTY, run, 3) == Holding(lost)
  {
    hide Next, ReplyTo, CheckWrite, ApprovedFrom, Normalise, ValidDigest;
    var run := LosingRun(cfg, id, digest, p, approver, now, sign);
    var seen := NewPlan(id, digest);
    var shown := seen.(preview := Some(p));
    var lost := ApprovedFrom(cfg, seen, approver, now, sign);
    LosingWrites(cfg, id, digest, p, approver, now, sign);
    PlanIsStored(cfg, id, digest);
    WriteIsStored(cfg, seen, shown);
    WriteIsStored(cfg, shown, lost);
    assert At(cfg, EMPTY, run, 1) == Next(cfg, EMPTY, run[0]);
    assert At(cfg, EMPTY, run, 2) == Next(cfg, Holding(seen), run[1]);
    assert At(cfg, EMPTY, run, 3) == Next(cfg, Holding(shown), run[2]);
  }
}
