/** Theorems about every run, and every sequence of runs, of the evidence recorder. */
module EvidenceTheorems {
  import opened Text
  import opened Evidence
  import opened EvidenceChain
  import opened EvidenceProtocol
  import opened EvidenceInvariant

  // ---- conservation and linkage ---------------------------------------------------------

  lemma LedgerLinked(h: Hash, cfg: Config, r: Run)
    requires ChainOk(h, cfg, r)
    ensures Linked(h, Tip(cfg.start, r.base), Ledger(r))
  {
    hide Linked, Chained, Flatten, Tip, RecordHash, Storable;
    var own := Own(r);
    ChainedConcat(h, cfg.start, r.base, own);
    ChainIsLinked(h, Tip(cfg.start, r.base), own);
    LinkedConcat(h, Tip(cfg.start, r.base), Flatten(own), r.current.records);
  }

  /** Over any interleaving of appends, rollovers, flushes and refusals: what has been passed on,
      is in flight, is closed and is open holds exactly the records appended, in order; segments are
      numbered consecutively from 0; and every record names the hash of the one before it, across
      segment boundaries and from the head this run resumed. */
  lemma NothingLostOrReordered(h: Hash, cfg: Config, run: seq<Step>, k: nat)
    requires k <= |run| && At(h, cfg, NOTHING, run, k).run.Some?
    ensures var w := At(h, cfg, NOTHING, run, k);
            var r := w.run.value;
            var held := Flatten(r.passed + r.inflight + r.closed) + r.current.records;
            && Strip(held) == w.appended
            && Linked(h, Tip(cfg.start, r.base), held)
            && (forall i :: 0 <= i < |r.passed + r.inflight + r.closed|
                  ==> (r.passed + r.inflight + r.closed)[i].segmentSeq == i)
            && r.current.segmentSeq == |r.passed + r.inflight + r.closed|
  {
    hide Linked, Flatten, Strip, Chained, CurrentOk;
    var w := At(h, cfg, NOTHING, run, k);
    Reachable(h, cfg, run, k);
    LedgerLinked(h, cfg, w.run.value);
    hide At;
  }

  // ---- intent before effect -----------------------------------------------------------------

  /** A device commit is issued only once an apply-intent record with its request id is in the
      outbox, whatever else is appended, flushed or refused meanwhile. */
  lemma IntentBeforeEffect(h: Hash, cfg: Config, run: seq<Step>, k: nat, q: string)
    requires k <= |run| && q in At(h, cfg, NOTHING, run, k).effects
    ensures InOutbox(At(h, cfg, NOTHING, run, k), q)
  {
    Reachable(h, cfg, run, k);
    hide At, InOutbox;
  }

  // ---- one chain across runs -------------------------------------------------------------------

  lemma {:induction false} FlattenGrows(cs: seq<Closed>, h: Hash, s: string, a: nat, b: nat)
    requires Chained(h, s, cs) && a < b <= |cs|
    ensures |Flatten(cs[..a])| < |Flatten(cs[..b])|
    decreases b
  {
    hide Linked, RecordHash, Storable;
    ChainedPrefix(h, s, cs[..b], cs);
    assert cs[..b][..b - 1] == cs[..b - 1];
    if a < b - 1 {
      FlattenGrows(cs, h, s, a, b - 1);
    }
  }

  lemma PrevHashAt(h: Hash, s: string, cs: seq<Closed>, i: nat)
    requires Chained(h, s, cs) && i < |cs|
    ensures cs[i].prevHash == Head(h, s, Flatten(cs[..i]))
    ensures Linked(h, s, Flatten(cs[..i])) && AllStorable(Flatten(cs[..i]))
  {
    hide Linked, RecordHash, Storable, Head, Flatten;
    ChainedPrefix(h, s, cs[..i + 1], cs);
    assert cs[..i + 1][..i] == cs[..i];
    ChainIsLinked(h, s, cs[..i]);
  }

  /** In a chain that started from the empty hash, no two segments name the same predecessor. */
  lemma OnePredecessorEach(h: Hash, past: seq<Record>, cs: seq<Closed>, a: nat, b: nat)
    requires IdealHash(h) && Linked(h, "", past) && AllStorable(past)
    requires Chained(h, Head(h, "", past), cs) && a < b < |cs|
    ensures cs[a].prevHash != cs[b].prevHash
  {
    hide Linked, RecordHash, Storable, Flatten, Chained, IdealHash, Head;
    var s := Head(h, "", past);
    PrevHashAt(h, s, cs, a);
    PrevHashAt(h, s, cs, b);
    var (x, y) := (Flatten(cs[..a]), Flatten(cs[..b]));
    LinkedConcat(h, "", past, x);
    LinkedConcat(h, "", past, y);
    FlattenGrows(cs, h, s, a, b);
    if Head(h, s, x) == Head(h, s, y) {
      HeadDeterminesChain(h, past + x, past + y);
    }
  }

  /** Over any sequence of runs with stops anywhere between and inside them, the outbox never forks:
      two lines that name the same predecessor are the same segment. */
  lemma NeverForks(h: Hash, cfg: Config, past: seq<Record>, run: seq<Step>, k: nat, i: nat, j: nat)
    requires IdealHash(h) && Linked(h, "", past) && AllStorable(past) && cfg.start == Head(h, "", past)
    requires k <= |run| && i < j < |At(h, cfg, NOTHING, run, k).outbox|
    ensures var o := At(h, cfg, NOTHING, run, k).outbox;
            o[i].prevHash == o[j].prevHash ==> o[i] == o[j]
  {
    hide Linked, RecordHash, Storable, Chained, IdealHash, Head, RunOk;
    Reachable(h, cfg, run, k);
    var w := At(h, cfg, NOTHING, run, k);
    hide At;
    var (a, b) := (w.places[i], w.places[j]);
    if a < b {
      OnePredecessorEach(h, past, w.durable, a, b);
    }
  }

  /** The outbox is one chain, each line a segment of it, in order, with repeats adjacent; the newest
      line is its end, so the head the next run resumes from is the chain's own. */
  lemma OutboxIsOneChain(h: Hash, cfg: Config, run: seq<Step>, k: nat)
    requires k <= |run|
    ensures var w := At(h, cfg, NOTHING, run, k);
            && Chained(h, cfg.start, w.durable) && |w.places| == |w.outbox|
            && (forall i :: 0 <= i < |w.outbox| ==> w.places[i] < |w.durable| && w.outbox[i] == w.durable[w.places[i]])
            && (forall i, j :: 0 <= i < j < |w.outbox| ==> w.places[i] <= w.places[j])
            && ResumeHead(cfg, w.outbox) == Tip(cfg.start, w.durable)
  {
    hide At, Next, Chained, RunOk, NoneMissing, RecordHash, Storable, Linked;
    Reachable(h, cfg, run, k);
  }

  /** Every drain so far reported success: none met a refusal. */
  ghost predicate DrainsSucceeded(h: Hash, cfg: Config, run: seq<Step>, k: nat)
    requires k <= |run|
  {
    forall j :: 0 <= j < k && run[j] == Spool(Refused) ==>
      var w := At(h, cfg, NOTHING, run, j); w.run.Some? ==> !w.run.value.draining
  }

  lemma {:induction false} NotLossy(h: Hash, cfg: Config, run: seq<Step>, k: nat)
    requires k <= |run| && DrainsSucceeded(h, cfg, run, k)
    ensures !At(h, cfg, NOTHING, run, k).lossy
  {
    hide Next;
    if k > 0 {
      NotLossy(h, cfg, run, k - 1);
      StepNotLossy(h, cfg, At(h, cfg, NOTHING, run, k - 1), run[k - 1]);
    }
  }

  lemma StepNotLossy(h: Hash, cfg: Config, w: World, s: Step)
    requires !w.lossy && (s == Spool(Refused) && w.run.Some? ==> !w.run.value.draining)
    ensures !Next(h, cfg, w, s).lossy
  {
    hide AppendRecord, ClaimAll, Recordable, NewRun, Requeue;
  }

  /** If every drain succeeded, the chain in the outbox has no gap: the first line starts it, and
      each further line repeats the one before or continues from its head. */
  lemma NoGapUnlessADrainFailed(h: Hash, cfg: Config, run: seq<Step>, k: nat)
    requires k <= |run| && DrainsSucceeded(h, cfg, run, k)
    ensures var o := At(h, cfg, NOTHING, run, k).outbox;
            && (o != [] ==> o[0].prevHash == cfg.start)
            && (forall i :: 0 < i < |o| ==> o[i] == o[i - 1] || o[i].prevHash == o[i - 1].headHash)
  {
    hide Chained, NoneMissing, RunOk, OutboxOk, InOutbox;
    NotLossy(h, cfg, run, k);
    Reachable(h, cfg, run, k);
    hide At;
    GapFree(h, cfg, At(h, cfg, NOTHING, run, k));
  }

  lemma GapFree(h: Hash, cfg: Config, w: World)
    requires OutboxOk(h, cfg, w) && NoneMissing(w)
    ensures w.outbox != [] ==> w.outbox[0].prevHash == cfg.start
    ensures forall i :: 0 < i < |w.outbox| ==>
              w.outbox[i] == w.outbox[i - 1] || w.outbox[i].prevHash == w.outbox[i - 1].headHash
  {
    hide Chained;
    if w.outbox != [] {
      FollowsTip(h, cfg.start, w.durable, 0);
    }
    forall i | 0 < i < |w.outbox|
      ensures w.outbox[i] == w.outbox[i - 1] || w.outbox[i].prevHash == w.outbox[i - 1].headHash
    {
      if w.places[i] != w.places[i - 1] {
        FollowsTip(h, cfg.start, w.durable, w.places[i]);
      }
    }
  }

  lemma FollowsTip(h: Hash, s: string, cs: seq<Closed>, i: nat)
    requires Chained(h, s, cs) && i < |cs|
    ensures cs[i].prevHash == if i == 0 then s else cs[i - 1].headHash
  {
    hide Linked, RecordHash, Storable;
    ChainedPrefix(h, s, cs[..i + 1], cs);
    assert cs[..i + 1][..i] == cs[..i];
  }

  // ---- how segments fill up ---------------------------------------------------------------

  /** A record joins the open segment; with the record that fills it, the segment is closed under the
      hash of that record, and the next one starts from there. */
  lemma AppendIsExact(h: Hash, cfg: Config, r: Run, record: Record)
    requires Recordable(record)
    ensures var n := AppendRecord(h, cfg, r, record);
            var e := Enveloped(r.current, record);
            var all := r.current.records + [e];
            if |all| < cfg.perSegment then
              n == r.(current := r.current.(records := all, lastHash := Some(RecordHash(h, e))))
            else
              var c := Closed(r.current.runId, r.current.serverId, r.current.segmentSeq, r.current.prevHash, all,
                              RecordHash(h, e));
              n == r.(closed := r.closed + [c], nextSeq := r.nextSeq + 1,
                      current := NewSegment(r.current.runId, r.current.serverId, r.nextSeq, RecordHash(h, e)))
  {
    var e := Enveloped(r.current, record);
    HashableIff(e);
    assert Shallow(e) <==> Shallow(record);
    hide ToJson, RecordHash;
  }

  // ---- and an intent does get there ---------------------------------------------------------

  /** An intent is appended and flushed, every segment is accepted, and the commit is issued. */
  function CommitStep(tid: nat, record: Record, n: nat, k: nat): Step {
    if k == 0 then BeginFlush(tid, record)
    else if k == 1 then Claim(tid)
    else if k < n + 2 then Spool(Accepted)
    else if k == n + 2 then Finish
    else Effect(tid)
  }

  function CommitRun(tid: nat, record: Record, n: nat): seq<Step> {
    seq(n + 4, k requires 0 <= k < n + 4 => CommitStep(tid, record, n, k))
  }

  /** A recorder nobody is flushing, and a free thread. */
  predicate Idle(w: World, tid: nat) {
    w.run.Some? && !w.run.value.draining && w.run.value.flusher.None? && tid !in w.run.value.tasks
  }

  /** How many segments the flush will have to hand over. */
  function Pending(h: Hash, cfg: Config, w: World, record: Record): nat
    requires w.run.Some?
  {
    |ClaimAll(AppendRecord(h, cfg, w.run.value, record)).inflight|
  }

  /** `j` segments of that flush are handed over. */
  predicate HandedOver(w: World, v: World, tid: nat, intent: string, left: nat) {
    && v.run.Some? && !v.run.value.draining && v.run.value.flusher == Some(tid) && tid in v.run.value.tasks
    && v.run.value.tasks[tid] == Task(Some(intent), Flushing) && |v.run.value.inflight| == left
    && v.effects == w.effects
  }

  lemma AppendKeepsTasks(h: Hash, cfg: Config, r: Run, record: Record)
    ensures var n := AppendRecord(h, cfg, r, record);
            n.tasks == r.tasks && n.flusher == r.flusher && n.draining == r.draining
  {
    hide Append;
  }

  lemma CommitBegins(h: Hash, cfg: Config, w: World, tid: nat, record: Record)
    requires Idle(w, tid) && Recordable(record) && record.detail.ApplyIntent?
    ensures var n := Pending(h, cfg, w, record);
            HandedOver(w, At(h, cfg, w, CommitRun(tid, record, n), 2), tid, record.requestId, n)
  {
    hide AppendRecord, Recordable;
    var n := Pending(h, cfg, w, record);
    var run := CommitRun(tid, record, n);
    AppendKeepsTasks(h, cfg, w.run.value, record);
    assert At(h, cfg, w, run, 0) == w;
    var v := At(h, cfg, w, run, 1);
    assert v == Next(h, cfg, w, BeginFlush(tid, record));
    assert At(h, cfg, w, run, 2) == Next(h, cfg, v, Claim(tid));
    var a := AppendRecord(h, cfg, w.run.value, record);
    assert v.run == Some(a.(tasks := a.tasks[tid := Task(Some(record.requestId), Phase.Waiting)]));
    assert ClaimAll(v.run.value).inflight == ClaimAll(a).inflight;
  }

  lemma {:induction false} CommitSpools(h: Hash, cfg: Config, w: World, tid: nat, record: Record, j: nat)
    requires Idle(w, tid) && Recordable(record) && record.detail.ApplyIntent? && j <= Pending(h, cfg, w, record)
    ensures var n := Pending(h, cfg, w, record);
            HandedOver(w, At(h, cfg, w, CommitRun(tid, record, n), 2 + j), tid, record.requestId, n - j)
  {
    hide Pending, Recordable;
    var n := Pending(h, cfg, w, record);
    var run := CommitRun(tid, record, n);
    if j == 0 {
      CommitBegins(h, cfg, w, tid, record);
    } else {
      CommitSpools(h, cfg, w, tid, record, j - 1);
      assert run[1 + j] == Spool(Accepted);
      assert At(h, cfg, w, run, 2 + j) == Next(h, cfg, At(h, cfg, w, run, 1 + j), Spool(Accepted));
    }
  }

  /** From any state in which nobody is flushing, an intent whose segments are all accepted leads to its
      commit being issued. */
  lemma AcceptedIntentTakesEffect(h: Hash, cfg: Config, w: World, tid: nat, record: Record)
    requires Idle(w, tid) && Recordable(record) && record.detail.ApplyIntent?
    ensures var run := CommitRun(tid, record, Pending(h, cfg, w, record));
            record.requestId in At(h, cfg, w, run, |run|).effects
  {
    var n := Pending(h, cfg, w, record);
    var run := CommitRun(tid, record, n);
    CommitSpools(h, cfg, w, tid, record, n);
    hide Pending, Recordable;
    var v := At(h, cfg, w, run, n + 2);
    assert run[n + 2] == Finish && run[n + 3] == Effect(tid);
    assert At(h, cfg, w, run, n + 3) == Next(h, cfg, v, Finish);
    assert At(h, cfg, w, run, n + 4) == Next(h, cfg, At(h, cfg, w, run, n + 3), Effect(tid));
  }
}
