/** What every step of the evidence protocol keeps. */
module EvidenceInvariant {
  import opened Text
  import opened Evidence
  import opened EvidenceChain
  import opened EvidenceProtocol

  // ---- chains of segments ---------------------------------------------------------------

  /** The hash the segment after `cs` must start from. */
  function Tip(start: string, cs: seq<Closed>): string {
    if cs == [] then start else cs[|cs| - 1].headHash
  }

  ghost predicate SegOk(h: Hash, start: string, c: Closed) {
    && c.prevHash == start && c.records != [] && AllStorable(c.records) && Linked(h, start, c.records)
    && c.headHash == Head(h, start, c.records)
    && forall i :: 0 <= i < |c.records| ==> InSegment(c.records[i], c.runId, c.serverId, c.segmentSeq)
  }

  predicate InSegment(r: Record, runId: string, serverId: string, seqNo: nat) {
    r.runId == runId && r.serverId == serverId && r.segmentSeq == seqNo
  }

  /** Each segment continues from the head of the one before it. */
  ghost predicate Chained(h: Hash, start: string, cs: seq<Closed>) {
    cs == [] || (Chained(h, start, cs[..|cs| - 1]) && SegOk(h, Tip(start, cs[..|cs| - 1]), cs[|cs| - 1]))
  }

  lemma {:induction false} ChainedConcat(h: Hash, s: string, a: seq<Closed>, b: seq<Closed>)
    ensures Chained(h, s, a + b) <==> Chained(h, s, a) && Chained(h, Tip(s, a), b)
    ensures Tip(s, a + b) == Tip(Tip(s, a), b)
    decreases |b|
  {
    hide SegOk;
    if b == [] {
      assert a + b == a;
    } else {
      var n := |b| - 1;
      ChainedConcat(h, s, a, b[..n]);
      assert (a + b)[..|a| + n] == a + b[..n];
    }
  }

  lemma ChainedPush(h: Hash, s: string, cs: seq<Closed>, c: Closed)
    requires Chained(h, s, cs) && SegOk(h, Tip(s, cs), c)
    ensures Chained(h, s, cs + [c]) && Tip(s, cs + [c]) == c.headHash
  {
    hide SegOk;
    assert (cs + [c])[..|cs|] == cs;
  }

  function Flatten(cs: seq<Closed>): seq<Record> {
    if cs == [] then [] else Flatten(cs[..|cs| - 1]) + cs[|cs| - 1].records
  }

  lemma FlattenPush(cs: seq<Closed>, c: Closed)
    ensures Flatten(cs + [c]) == Flatten(cs) + c.records
  {
    assert (cs + [c])[..|cs|] == cs;
  }

  /** A chain of segments is a chain of records. */
  lemma {:induction false} ChainIsLinked(h: Hash, s: string, cs: seq<Closed>)
    requires Chained(h, s, cs)
    ensures Linked(h, s, Flatten(cs)) && AllStorable(Flatten(cs)) && Tip(s, cs) == Head(h, s, Flatten(cs))
  {
    if cs != [] {
      var n := |cs| - 1;
      ChainIsLinked(h, s, cs[..n]);
      LinkedConcat(h, s, Flatten(cs[..n]), cs[n].records);
      hide Linked, Storable, RecordHash;
    }
  }

  // ---- one run's chain --------------------------------------------------------------------

  ghost predicate CurrentOk(h: Hash, s: Segment) {
    SegmentOk(h, s)
    && forall i :: 0 <= i < |s.records| ==> InSegment(s.records[i], s.runId, s.serverId, s.segmentSeq)
  }

  /** Segments are numbered consecutively from 0. */
  ghost predicate Numbered(own: seq<Closed>) {
    forall i :: 0 <= i < |own| ==> own[i].segmentSeq == i
  }

  /** A run's segments continue its base, and its open segment continues them. */
  ghost predicate Continues(h: Hash, start: string, base: seq<Closed>, own: seq<Closed>, current: Segment,
                            nextSeq: nat)
  {
    && Chained(h, start, base + own) && Numbered(own)
    && current.segmentSeq == |own| && nextSeq == |own| + 1
    && CurrentOk(h, current) && current.prevHash == Tip(start, base + own)
  }

  ghost predicate ChainOk(h: Hash, cfg: Config, r: Run) {
    Continues(h, cfg.start, r.base, Own(r), r.current, r.nextSeq)
  }

  /** Everything this run holds or has passed on, in order. */
  function Ledger(r: Run): seq<Record> { Flatten(Own(r)) + r.current.records }

  lemma CloseOk(h: Hash, s: Segment)
    requires CurrentOk(h, s) && s.records != []
    ensures SegOk(h, s.prevHash, Close(s))
  {
    hide Linked, RecordHash, Storable;
  }

  lemma FreshOk(h: Hash, runId: string, serverId: string, seqNo: nat, prevHash: string)
    ensures CurrentOk(h, NewSegment(runId, serverId, seqNo, prevHash))
  {
  }

  lemma RolledContinues(h: Hash, start: string, base: seq<Closed>, own: seq<Closed>, s: Segment, nextSeq: nat)
    requires Continues(h, start, base, own, s, nextSeq) && s.records != []
    ensures var c := Close(s);
            Continues(h, start, base, own + [c], NewSegment(s.runId, s.serverId, nextSeq, c.headHash), nextSeq + 1)
  {
    var c := Close(s);
    hide SegOk, Chained, Tip, CurrentOk;
    CloseOk(h, s);
    ChainedPush(h, start, base + own, c);
    assert base + (own + [c]) == base + own + [c];
    FreshOk(h, s.runId, s.serverId, nextSeq, c.headHash);
  }

  lemma RollOk(h: Hash, cfg: Config, r: Run)
    requires ChainOk(h, cfg, r)
    ensures ChainOk(h, cfg, Roll(r)) && Ledger(Roll(r)) == Ledger(r)
  {
    if r.current.records != [] {
      var c := Close(r.current);
      assert Own(Roll(r)) == Own(r) + [c];
      FlattenPush(Own(r), c);
      RolledContinues(h, cfg.start, r.base, Own(r), r.current, r.nextSeq);
      hide Continues, Flatten, Own;
    }
  }

  function Stripped(r: Record): Record {
    r.(runId := "", serverId := "", segmentSeq := 0, prevHash := "")
  }

  function Strip(rs: seq<Record>): seq<Record> {
    seq(|rs|, i requires 0 <= i < |rs| => Stripped(rs[i]))
  }

  lemma GrownContinues(h: Hash, start: string, base: seq<Closed>, own: seq<Closed>, s: Segment, nextSeq: nat,
                       record: Record)
    requires Continues(h, start, base, own, s, nextSeq) && Recordable(record)
    ensures var a := Append(h, s, record);
            && a.Ok? && a.segment.records == s.records + [Enveloped(s, record)]
            && Continues(h, start, base, own, a.segment, nextSeq)
  {
    AppendOk(h, s, record);
    var a := Append(h, s, record);
    assert a.segment == s.(records := s.records + [Enveloped(s, record)], lastHash := a.segment.lastHash);
    hide Append, SegmentOk, Storable, Shallow, Chained, Numbered;
  }

  lemma StrippedBack(s: Segment, r: Record)
    requires Blank(r)
    ensures Stripped(Enveloped(s, r)) == r
  {
  }

  lemma AppendRecordOk(h: Hash, cfg: Config, r: Run, record: Record)
    requires ChainOk(h, cfg, r) && Recordable(record)
    ensures var n := AppendRecord(h, cfg, r, record);
            ChainOk(h, cfg, n) && Strip(Ledger(n)) == Strip(Ledger(r)) + [record]
  {
    hide Continues, Append, Storable, Shallow, Blank, Roll, Enveloped, Flatten, Strip, Stripped;
    GrownContinues(h, cfg.start, r.base, Own(r), r.current, r.nextSeq, record);
    var e := Enveloped(r.current, record);
    StrippedBack(r.current, record);
    var m := r.(current := Append(h, r.current, record).segment);
    assert Own(m) == Own(r);
    assert Ledger(m) == Ledger(r) + [e];
    StripPush(Ledger(r), e);
    RollOk(h, cfg, m);
  }

  lemma StripPush(rs: seq<Record>, r: Record)
    ensures Strip(rs + [r]) == Strip(rs) + [Stripped(r)]
  {
  }

  lemma ClaimAllOk(h: Hash, cfg: Config, r: Run)
    requires ChainOk(h, cfg, r) && r.inflight == []
    ensures ChainOk(h, cfg, ClaimAll(r)) && Ledger(ClaimAll(r)) == Ledger(r)
    ensures Own(ClaimAll(r)) == Own(Roll(r))
  {
    hide Continues, Flatten;
    RollOk(h, cfg, r);
    var n := Roll(r);
    assert n.inflight == [];
    hide Roll;
    assert n.passed + n.closed + [] == n.passed + [] + n.closed;
  }

  lemma RequeueOwn(r: Run, tid: nat)
    ensures Own(Requeue(r, tid)) == Own(r)
  {
  }

  lemma PassOwn(r: Run)
    requires r.inflight != []
    ensures Own(Pass(r)) == Own(r)
  {
    assert [r.inflight[0]] + r.inflight[1..] == r.inflight;
  }

  // ---- the outbox ---------------------------------------------------------------------------

  /** Every outbox line is a segment of one chain, in chain order, repeats being adjacent, and the
      chain ends at the newest line. */
  ghost predicate OutboxOk(h: Hash, cfg: Config, w: World) {
    Chained(h, cfg.start, w.durable) && Placed(w.outbox, w.places, w.durable)
  }

  ghost predicate Placed(outbox: seq<Closed>, places: seq<nat>, chain: seq<Closed>) {
    && |places| == |outbox|
    && (forall i :: 0 <= i < |outbox| ==> places[i] < |chain| && outbox[i] == chain[places[i]])
    && (forall i, j :: 0 <= i < j < |outbox| ==> places[i] <= places[j])
    && (if outbox == [] then chain == [] else places[|places| - 1] == |chain| - 1)
  }

  lemma PlacedNext(outbox: seq<Closed>, places: seq<nat>, chain: seq<Closed>, longer: seq<Closed>)
    requires Placed(outbox, places, chain) && chain <= longer && longer != []
    ensures Placed(outbox + [longer[|longer| - 1]], places + [|longer| - 1], longer)
  {
    var o := outbox + [longer[|longer| - 1]];
    var p: seq<nat> := places + [|longer| - 1];
    forall i | 0 <= i < |o| ensures p[i] < |longer| && o[i] == longer[p[i]] {
      assert i < |outbox| ==> outbox[i] == chain[places[i]] == longer[places[i]];
    }
  }

  /** No segment of the chain is missing from the outbox. */
  ghost predicate NoneMissing(w: World) {
    && (w.places != [] ==> w.places[0] == 0)
    && (forall i :: 0 < i < |w.places| ==> w.places[i] <= w.places[i - 1] + 1)
  }

  /** How far the outbox is along this run's chain. */
  ghost predicate Along(w: World, r: Run) {
    && w.durable <= Path(r) && |w.durable| <= |r.base| + |r.passed| + 1
    && (!r.draining || !w.lossy ==> |w.durable| >= |r.base| + |r.passed|)
  }

  // ---- threads --------------------------------------------------------------------------------

  predicate IsIntent(r: Record, q: string) { r.detail.ApplyIntent? && r.requestId == q }

  ghost predicate Holds(rs: seq<Record>, q: string) {
    exists i :: 0 <= i < |rs| && IsIntent(rs[i], q)
  }

  /** Where a thread's intent record is at least, by phase. */
  ghost predicate TaskOk(r: Run, tid: nat) {
    tid in r.tasks ==>
      var t := r.tasks[tid];
      && (t.phase.Flushing? <==> r.flusher == Some(tid))
      && (t.intent.Some? ==>
            match t.phase
            case Waiting => Holds(Ledger(r), t.intent.value)
            case Flushing => Holds(Flatten(r.passed + r.inflight), t.intent.value)
            case Cleared => Holds(Flatten(r.passed), t.intent.value))
  }

  ghost predicate TasksOk(r: Run) {
    && (forall tid {:trigger TaskOk(r, tid)} :: TaskOk(r, tid))
    && (r.flusher.Some? ==> r.flusher.value in r.tasks && !r.draining)
    && (r.draining ==> r.tasks == map[])
    && (r.flusher.None? && !r.draining ==> r.inflight == [])
  }

  ghost predicate InOutbox(w: World, q: string) {
    exists i :: 0 <= i < |w.outbox| && Holds(w.outbox[i].records, q)
  }

  ghost predicate RunOk(h: Hash, cfg: Config, w: World, r: Run) {
    && ChainOk(h, cfg, r) && Strip(Ledger(r)) == w.appended
    && Along(w, r) && TasksOk(r)
    && (!r.draining ==> forall c :: c in r.passed ==> c in w.outbox)
  }

  ghost predicate Inv(h: Hash, cfg: Config, w: World) {
    && OutboxOk(h, cfg, w) && (!w.lossy ==> NoneMissing(w))
    && (forall q :: q in w.effects ==> InOutbox(w, q))
    && (w.run.Some? ==> RunOk(h, cfg, w, w.run.value))
  }

  // ---- intents stay findable ------------------------------------------------------------------

  lemma HoldsGrows(a: seq<Record>, b: seq<Record>, q: string)
    requires Holds(a, q)
    ensures Holds(a + b, q)
  {
    var i :| 0 <= i < |a| && IsIntent(a[i], q);
    assert IsIntent((a + b)[i], q);
  }

  lemma HoldsStripped(rs: seq<Record>, q: string)
    ensures Holds(rs, q) <==> Holds(Strip(rs), q)
  {
    if Holds(rs, q) {
      var i :| 0 <= i < |rs| && IsIntent(rs[i], q);
      assert IsIntent(Strip(rs)[i], q);
    }
    if Holds(Strip(rs), q) {
      var i :| 0 <= i < |rs| && IsIntent(Strip(rs)[i], q);
      assert IsIntent(rs[i], q);
    }
  }

  lemma {:induction false} HeldBySome(cs: seq<Closed>, q: string) returns (i: nat)
    requires Holds(Flatten(cs), q)
    ensures i < |cs| && Holds(cs[i].records, q)
  {
    var n := |cs| - 1;
    var init := Flatten(cs[..n]);
    var k :| 0 <= k < |Flatten(cs)| && IsIntent(Flatten(cs)[k], q);
    if k < |init| {
      assert IsIntent(init[k], q);
      i := HeldBySome(cs[..n], q);
    } else {
      assert IsIntent(cs[n].records[k - |init|], q);
      i := n;
    }
  }

  // ---- starting and stopping --------------------------------------------------------------------

  lemma NewRunOk(h: Hash, cfg: Config, w: World, runId: string)
    requires OutboxOk(h, cfg, w)
    ensures ChainOk(h, cfg, NewRun(cfg, w, runId)) && Ledger(NewRun(cfg, w, runId)) == []
  {
    hide CurrentOk, Chained;
    var r := NewRun(cfg, w, runId);
    assert r.base + [] == w.durable && Own(r) == [];
    assert ResumeHead(cfg, w.outbox) == Tip(cfg.start, w.durable);
    FreshOk(h, runId, cfg.serverId, 0, ResumeHead(cfg, w.outbox));
  }

  lemma StartOk(h: Hash, cfg: Config, w: World, runId: string)
    requires Inv(h, cfg, w) && w.run.None?
    ensures Inv(h, cfg, Next(h, cfg, w, Start(runId)))
  {
    hide ChainOk, Chained, Flatten, InOutbox;
    NewRunOk(h, cfg, w, runId);
    var r := NewRun(cfg, w, runId);
    assert Path(r) == w.durable;
    assert Strip(Ledger(r)) == [];
    OutboxSame(h, cfg, w, Next(h, cfg, w, Start(runId)));
  }

  // ---- appending --------------------------------------------------------------------------------

  /** The parts of a run that an append or a claim leaves alone. */
  predicate SameFlush(r: Run, n: Run) {
    n.base == r.base && n.passed == r.passed && n.tasks == r.tasks && n.flusher == r.flusher && n.draining == r.draining
  }

  lemma AppendShape(h: Hash, cfg: Config, r: Run, record: Record)
    ensures var n := AppendRecord(h, cfg, r, record);
            SameFlush(r, n) && n.inflight == r.inflight && r.closed <= n.closed
  {
    hide Append;
  }

  lemma AlongGrows(w: World, r: Run, n: Run)
    requires Along(w, r) && SameFlush(r, n) && Own(r) <= Own(n)
    ensures Along(w, n)
  {
    assert Path(n) == Path(r) + Own(n)[|Own(r)|..];
  }

  lemma AppendTasksOk(h: Hash, cfg: Config, r: Run, record: Record)
    requires ChainOk(h, cfg, r) && Recordable(record) && TasksOk(r)
    ensures TasksOk(AppendRecord(h, cfg, r, record))
    ensures record.detail.ApplyIntent? ==> Holds(Ledger(AppendRecord(h, cfg, r, record)), record.requestId)
  {
    hide Continues, Flatten, AppendRecord, Strip, Storable, Shallow, Holds, Ledger;
    var n := AppendRecord(h, cfg, r, record);
    AppendShape(h, cfg, r, record);
    AppendRecordOk(h, cfg, r, record);
    forall tid ensures TaskOk(n, tid) {
      assert TaskOk(r, tid);
      if tid in r.tasks && r.tasks[tid].intent.Some? {
        LedgerKeeps(r, n, record, r.tasks[tid].intent.value);
      }
    }
    if record.detail.ApplyIntent? {
      var all := Strip(Ledger(n));
      assert IsIntent(all[|all| - 1], record.requestId);
      assert Holds(all, record.requestId) by { AnyHolds(all, |all| - 1, record.requestId); }
      HoldsStripped(Ledger(n), record.requestId);
    }
  }

  lemma AnyHolds(rs: seq<Record>, i: nat, q: string)
    requires i < |rs| && IsIntent(rs[i], q)
    ensures Holds(rs, q)
  {
  }

  lemma LedgerKeeps(r: Run, n: Run, record: Record, q: string)
    requires Strip(Ledger(n)) == Strip(Ledger(r)) + [record]
    ensures Holds(Ledger(r), q) ==> Holds(Ledger(n), q)
  {
    hide Holds, Strip, Ledger;
    HoldsStripped(Ledger(r), q);
    HoldsStripped(Ledger(n), q);
    if Holds(Ledger(r), q) {
      HoldsGrows(Strip(Ledger(r)), [record], q);
    }
  }

  lemma AppendStepOk(h: Hash, cfg: Config, w: World, r: Run, record: Record)
    requires RunOk(h, cfg, w, r) && Recordable(record)
    ensures RunOk(h, cfg, w.(appended := w.appended + [record]), AppendRecord(h, cfg, r, record))
    ensures record.detail.ApplyIntent? ==> Holds(Ledger(AppendRecord(h, cfg, r, record)), record.requestId)
  {
    hide Continues, Flatten, AppendRecord, Strip, Storable, Shallow, Holds, TasksOk, Ledger, Along;
    AppendShape(h, cfg, r, record);
    AppendRecordOk(h, cfg, r, record);
    AppendTasksOk(h, cfg, r, record);
    var n := AppendRecord(h, cfg, r, record);
    assert n.closed == r.closed + n.closed[|r.closed|..];
    assert Own(n) == Own(r) + n.closed[|r.closed|..];
    AlongGrows(w, r, n);
    assert Along(w.(appended := w.appended + [record]), n) by {
      AlongSame(w, w.(appended := w.appended + [record]), n);
    }
  }

  lemma AlongSame(w: World, v: World, r: Run)
    requires v.durable == w.durable && v.lossy == w.lossy && Along(w, r)
    ensures Along(v, r)
  {
  }

  lemma NoteOk(h: Hash, cfg: Config, w: World, record: Record)
    requires Inv(h, cfg, w) && w.run.Some?
    ensures Inv(h, cfg, Next(h, cfg, w, Note(record)))
  {
    hide RunOk, Recordable, AppendRecord, Chained, InOutbox, NoneMissing;
    if Recordable(record) && !w.run.value.draining {
      AppendStepOk(h, cfg, w, w.run.value, record);
      var n := AppendRecord(h, cfg, w.run.value, record);
      RunOkSame(h, cfg, w.(appended := w.appended + [record]), Next(h, cfg, w, Note(record)), n);
      OutboxSame(h, cfg, w, Next(h, cfg, w, Note(record)));
    }
  }

  lemma RunOkSame(h: Hash, cfg: Config, w: World, v: World, r: Run)
    requires RunOk(h, cfg, w, r)
    requires v.durable == w.durable && v.lossy == w.lossy && v.appended == w.appended && v.outbox == w.outbox
    ensures RunOk(h, cfg, v, r)
  {
    hide ChainOk, TasksOk, Ledger, Strip;
  }

  lemma OutboxSame(h: Hash, cfg: Config, w: World, v: World)
    requires OutboxOk(h, cfg, w) && (!w.lossy ==> NoneMissing(w)) && (forall q :: q in w.effects ==> InOutbox(w, q))
    requires v.outbox == w.outbox && v.durable == w.durable && v.places == w.places
    requires v.effects == w.effects && v.lossy == w.lossy
    ensures OutboxOk(h, cfg, v) && (!v.lossy ==> NoneMissing(v)) && (forall q :: q in v.effects ==> InOutbox(v, q))
  {
    hide Chained, Holds;
    forall q | q in v.effects ensures InOutbox(v, q) {
      assert InOutbox(w, q);
    }
  }

  lemma BeginFlushOk(h: Hash, cfg: Config, w: World, tid: nat, record: Record)
    requires Inv(h, cfg, w) && w.run.Some?
    ensures Inv(h, cfg, Next(h, cfg, w, BeginFlush(tid, record)))
  {
    hide RunOk, Recordable, AppendRecord, Chained, InOutbox, NoneMissing;
    var r := w.run.value;
    if Recordable(record) && !r.draining && tid !in r.tasks {
      AppendStepOk(h, cfg, w, r, record);
      AppendShape(h, cfg, r, record);
      var n := AppendRecord(h, cfg, r, record);
      var v := Next(h, cfg, w, BeginFlush(tid, record));
      OutboxSame(h, cfg, w, v);
      RunOkSame(h, cfg, w.(appended := w.appended + [record]), v, n);
      var t := Task(if record.detail.ApplyIntent? then Some(record.requestId) else None, Waiting);
      AddTaskOk(h, cfg, v, n, tid, t);
    }
  }

  lemma AddTaskOk(h: Hash, cfg: Config, w: World, r: Run, tid: nat, t: Task)
    requires RunOk(h, cfg, w, r) && tid !in r.tasks && t.phase.Waiting? && !r.draining
    requires t.intent.Some? ==> Holds(Ledger(r), t.intent.value)
    ensures RunOk(h, cfg, w, r.(tasks := r.tasks[tid := t]))
  {
    hide Continues, Flatten, Strip, Holds;
    var n := r.(tasks := r.tasks[tid := t]);
    assert Ledger(n) == Ledger(r) && Path(n) == Path(r);
    forall x ensures TaskOk(n, x) {
      assert TaskOk(r, x);
    }
  }

  // ---- claiming -----------------------------------------------------------------------------------

  lemma ClaimShape(r: Run)
    requires r.inflight == []
    ensures var n := ClaimAll(r);
            && SameFlush(r, n) && n.closed == [] && n.current.records == []
            && r.closed <= n.inflight && Own(r) <= Own(n)
  {
    var n := ClaimAll(r);
    assert n.inflight == r.closed + n.inflight[|r.closed|..];
    assert Own(r) == r.passed + r.closed;
    assert Own(n) == r.passed + n.inflight;
  }

  /** Everything held becomes the claim of one flush or drain. */
  lemma ClaimedOk(h: Hash, cfg: Config, w: World, r: Run)
    requires RunOk(h, cfg, w, r) && r.flusher.None? && !r.draining
    ensures var n := ClaimAll(r);
            && ChainOk(h, cfg, n) && Strip(Ledger(n)) == w.appended && Along(w, n) && SameFlush(r, n)
            && Ledger(n) == Ledger(r) && Flatten(n.passed + n.inflight) == Ledger(r)
  {
    hide Continues, Flatten, Strip, Along;
    ClaimAllOk(h, cfg, r);
    ClaimShape(r);
    var n := ClaimAll(r);
    hide ClaimAll;
    AlongGrows(w, r, n);
    assert Own(n) == n.passed + n.inflight;
    assert Ledger(n) == Flatten(n.passed + n.inflight) + [];
  }

  lemma ClaimOk(h: Hash, cfg: Config, w: World, tid: nat)
    requires Inv(h, cfg, w) && w.run.Some?
    ensures Inv(h, cfg, Next(h, cfg, w, Claim(tid)))
  {
    hide ChainOk, Chained, InOutbox, NoneMissing, Flatten, Strip, Along, Holds, ClaimAll;
    var r := w.run.value;
    var v := Next(h, cfg, w, Claim(tid));
    if v != w {
      ClaimedOk(h, cfg, w, r);
      OutboxSame(h, cfg, w, v);
      ClaimTasksOk(h, cfg, w, r, tid);
      var n := v.run.value;
      assert ChainOk(h, cfg, n) && Ledger(n) == Ledger(ClaimAll(r)) by { ChainSame(h, cfg, ClaimAll(r), n); }
      assert Along(v, n) by { hide Own; AlongTasks(w, v, ClaimAll(r), n); }
    }
  }

  lemma ChainSame(h: Hash, cfg: Config, r: Run, n: Run)
    requires ChainOk(h, cfg, r) && n == r.(tasks := n.tasks, flusher := n.flusher, draining := n.draining)
    ensures ChainOk(h, cfg, n) && Ledger(n) == Ledger(r)
  {
  }

  lemma AlongTasks(w: World, v: World, r: Run, n: Run)
    requires Along(w, r) && n == r.(tasks := n.tasks, flusher := n.flusher, draining := n.draining)
    requires v.durable == w.durable && v.lossy == w.lossy && !r.draining
    ensures Along(v, n)
  {
    assert Path(n) == Path(r);
  }

  lemma ClaimTasksOk(h: Hash, cfg: Config, w: World, r: Run, tid: nat)
    requires RunOk(h, cfg, w, r) && tid in r.tasks && r.tasks[tid].phase.Waiting? && r.flusher.None? && !r.draining
    ensures var n := ClaimAll(r);
            TasksOk(n.(flusher := Some(tid), tasks := n.tasks[tid := n.tasks[tid].(phase := Flushing)]))
  {
    hide Continues, Flatten, Strip, Along, Holds, ClaimAll;
    ClaimedOk(h, cfg, w, r);
    var c := ClaimAll(r);
    var n := c.(flusher := Some(tid), tasks := c.tasks[tid := c.tasks[tid].(phase := Flushing)]);
    assert Ledger(n) == Ledger(r);
    forall x ensures TaskOk(n, x) {
      assert TaskOk(r, x);
    }
  }

  lemma BeginDrainOk(h: Hash, cfg: Config, w: World)
    requires Inv(h, cfg, w) && w.run.Some?
    ensures Inv(h, cfg, Next(h, cfg, w, BeginDrain))
  {
    hide ChainOk, Chained, InOutbox, NoneMissing, Flatten, Strip, Along, Holds, ClaimAll;
    var r := w.run.value;
    var v := Next(h, cfg, w, BeginDrain);
    if v != w {
      ClaimedOk(h, cfg, w, r);
      OutboxSame(h, cfg, w, v);
      var n := v.run.value;
      assert ChainOk(h, cfg, n) && Ledger(n) == Ledger(ClaimAll(r)) by { ChainSame(h, cfg, ClaimAll(r), n); }
      assert Along(v, n) by { AlongTasks(w, v, ClaimAll(r), n); }
    }
  }

  // ---- spooling -------------------------------------------------------------------------------------

  lemma ChainedPrefix(h: Hash, start: string, a: seq<Closed>, b: seq<Closed>)
    requires a <= b && Chained(h, start, b)
    ensures Chained(h, start, a)
  {
    hide Chained, Tip;
    ChainedConcat(h, start, a, b[|a|..]);
    assert b == a + b[|a|..];
  }

  lemma UpToNext(r: Run)
    requires r.inflight != []
    ensures r.base + r.passed + [r.inflight[0]] <= Path(r)
  {
  }

  /** Writing the next segment keeps the outbox one chain, and leaves no hole unless one was skipped. */
  lemma WrittenOk(h: Hash, cfg: Config, w: World, r: Run)
    requires OutboxOk(h, cfg, w) && Chained(h, cfg.start, Path(r)) && r.inflight != []
    requires w.durable <= Path(r) && |w.durable| <= |r.base| + |r.passed| + 1
    ensures var n := Written(w, r);
            && OutboxOk(h, cfg, n) && n.durable <= Path(r)
            && (NoneMissing(w) && |w.durable| >= |r.base| + |r.passed| ==> NoneMissing(n))
  {
    hide Chained, Path, Placed;
    var n := Written(w, r);
    UpToNext(r);
    ChainedPrefix(h, cfg.start, n.durable, Path(r));
    assert w.durable == n.durable[..|w.durable|];
    PlacedNext(w.outbox, w.places, w.durable, n.durable);
    LastPlace(w.outbox, w.places, w.durable);
  }

  lemma LastPlace(outbox: seq<Closed>, places: seq<nat>, chain: seq<Closed>)
    requires Placed(outbox, places, chain)
    ensures places == [] ==> chain == []
    ensures places != [] ==> places[|places| - 1] == |chain| - 1
  {
  }

  lemma EffectsStay(w: World, n: World, q: string)
    requires InOutbox(w, q) && w.outbox <= n.outbox
    ensures InOutbox(n, q)
  {
    hide Holds;
    var i :| 0 <= i < |w.outbox| && Holds(w.outbox[i].records, q);
    assert Holds(n.outbox[i].records, q);
  }

  lemma PassTasksOk(r: Run)
    requires TasksOk(r) && r.inflight != []
    ensures TasksOk(Pass(r))
  {
    hide Holds, Flatten;
    var n := Pass(r);
    PassOwn(r);
    assert n.passed + n.inflight == r.passed + r.inflight;
    forall x ensures TaskOk(n, x) {
      assert TaskOk(r, x);
      if x in r.tasks && r.tasks[x].intent.Some? && r.tasks[x].phase.Cleared? {
        FlattenPush(r.passed, r.inflight[0]);
        HoldsGrows(Flatten(r.passed), r.inflight[0].records, r.tasks[x].intent.value);
      }
    }
  }

  lemma RequeueTasksOk(r: Run)
    requires TasksOk(r) && r.flusher.Some?
    ensures TasksOk(Requeue(r, r.flusher.value))
  {
    hide Holds, Flatten;
    var n := Requeue(r, r.flusher.value);
    RequeueOwn(r, r.flusher.value);
    forall x ensures TaskOk(n, x) {
      assert TaskOk(r, x);
    }
  }

  lemma PassRunOk(h: Hash, cfg: Config, w: World, v: World, r: Run)
    requires RunOk(h, cfg, w, r) && r.inflight != []
    requires v.appended == w.appended && v.durable <= Path(r) && |v.durable| <= |r.base| + |r.passed| + 1
    requires !r.draining || !v.lossy ==> |v.durable| == |r.base| + |r.passed| + 1
    requires !r.draining ==> w.outbox <= v.outbox && r.inflight[0] in v.outbox
    ensures RunOk(h, cfg, v, Pass(r))
  {
    hide Continues, Flatten, Strip, TasksOk;
    PassOwn(r);
    PassTasksOk(r);
    var n := Pass(r);
    assert Path(n) == Path(r);
    if !r.draining {
      forall c | c in n.passed ensures c in v.outbox {
        assert c in r.passed ==> c in w.outbox;
      }
    }
  }

  lemma RequeueRunOk(h: Hash, cfg: Config, w: World, v: World, r: Run)
    requires RunOk(h, cfg, w, r) && r.flusher.Some?
    requires v.appended == w.appended && v.durable <= Path(r)
    requires |r.base| + |r.passed| <= |v.durable| <= |r.base| + |r.passed| + 1
    requires w.outbox <= v.outbox
    ensures RunOk(h, cfg, v, Requeue(r, r.flusher.value))
  {
    hide Continues, Flatten, Strip, TasksOk;
    RequeueOwn(r, r.flusher.value);
    RequeueTasksOk(r);
    var n := Requeue(r, r.flusher.value);
    assert Path(n) == Path(r);
    assert !r.draining by { assert TasksOk(r); NotDraining(r); }
    forall c | c in n.passed ensures c in v.outbox {
      assert c in w.outbox;
    }
  }

  lemma NotDraining(r: Run)
    requires TasksOk(r) && r.flusher.Some?
    ensures !r.draining
  {
  }

  lemma SpoolOutboxOk(h: Hash, cfg: Config, w: World, verdict: Verdict)
    requires Inv(h, cfg, w) && w.run.Some? && w.run.value.inflight != []
    requires w.run.value.draining || w.run.value.flusher.Some?
    ensures var v := SpoolOne(w, w.run.value, verdict);
            OutboxOk(h, cfg, v) && (!v.lossy ==> NoneMissing(v)) && (forall q :: q in v.effects ==> InOutbox(v, q))
  {
    hide Continues, Chained, Flatten, Strip, TasksOk, InOutbox, NoneMissing, Path;
    var r := w.run.value;
    var v := SpoolOne(w, r, verdict);
    assert Chained(h, cfg.start, Path(r)) by { PathChained(h, cfg, r); }
    WrittenOk(h, cfg, w, r);
    var n := if verdict.Refused? then w else Written(w, r);
    forall q | q in v.effects ensures InOutbox(v, q) {
      EffectsStay(w, v, q);
    }
    assert OutboxOk(h, cfg, v) && (!v.lossy ==> NoneMissing(v)) by {
      assert v.outbox == n.outbox && v.durable == n.durable && v.places == n.places;
      assert !v.lossy ==> NoneMissing(n);
      NoneMissingSame(n, v);
    }
  }

  lemma NoneMissingSame(w: World, v: World)
    requires v.places == w.places
    ensures NoneMissing(v) <==> NoneMissing(w)
  {
  }

  lemma PathChained(h: Hash, cfg: Config, r: Run)
    requires ChainOk(h, cfg, r)
    ensures Chained(h, cfg.start, Path(r))
  {
  }

  lemma SpoolOk(h: Hash, cfg: Config, w: World, verdict: Verdict)
    requires Inv(h, cfg, w) && w.run.Some?
    ensures Inv(h, cfg, Next(h, cfg, w, Spool(verdict)))
  {
    hide Continues, Chained, Flatten, Strip, InOutbox, NoneMissing;
    var r := w.run.value;
    if r.inflight != [] {
      assert r.draining || r.flusher.Some?;
      NotDrainingIf(r);
      hide TasksOk;
      var v := SpoolOne(w, r, verdict);
      SpoolOutboxOk(h, cfg, w, verdict);
      var n := if verdict.Refused? then w else Written(w, r);
      assert n.durable <= Path(r) by {
        PathChained(h, cfg, r);
        WrittenOk(h, cfg, w, r);
      }
      if r.draining || verdict.Accepted? {
        PassRunOk(h, cfg, w, v, r);
      } else {
        RequeueRunOk(h, cfg, w, v, r);
      }
    }
  }

  lemma NotDrainingIf(r: Run)
    requires TasksOk(r)
    ensures r.flusher.Some? ==> !r.draining
  {
  }

  // ---- finishing ----------------------------------------------------------------------------------------

  lemma FinishOk(h: Hash, cfg: Config, w: World)
    requires Inv(h, cfg, w) && w.run.Some?
    ensures Inv(h, cfg, Next(h, cfg, w, Finish))
  {
    hide Continues, Chained, Flatten, Strip, InOutbox, NoneMissing, Holds, Along;
    var r := w.run.value;
    var v := Next(h, cfg, w, Finish);
    if v != w {
      OutboxSame(h, cfg, w, v);
      var n := v.run.value;
      ChainSame(h, cfg, r, n);
      AlongTasks(w, v, r, n);
      assert r.passed + [] == r.passed;
      forall x ensures TaskOk(n, x) {
        assert TaskOk(r, x);
      }
    }
  }

  lemma EffectOk(h: Hash, cfg: Config, w: World, tid: nat)
    requires Inv(h, cfg, w) && w.run.Some?
    ensures Inv(h, cfg, Next(h, cfg, w, Effect(tid)))
  {
    hide Continues, Chained, Flatten, Strip, NoneMissing, Holds, Along;
    var r := w.run.value;
    var v := Next(h, cfg, w, Effect(tid));
    if v != w {
      var n := v.run.value;
      ChainSame(h, cfg, r, n);
      assert tid in r.tasks && TaskOk(r, tid);
      AlongTasks(w, v, r, n);
      NoneMissingSame(w, v);
      forall x ensures TaskOk(n, x) {
        assert TaskOk(r, x);
      }
      forall q | q in v.effects ensures InOutbox(v, q) {
        if q !in w.effects {
          var i := HeldBySome(r.passed, q);
          assert r.passed[i] in w.outbox;
          var j :| 0 <= j < |w.outbox| && w.outbox[j] == r.passed[i];
          assert Holds(v.outbox[j].records, q);
        } else {
          EffectsStay(w, v, q);
        }
      }
    }
  }

  lemma StopOk(h: Hash, cfg: Config, w: World)
    requires Inv(h, cfg, w) && w.run.Some?
    ensures Inv(h, cfg, Next(h, cfg, w, Stop))
  {
    hide RunOk, Chained, Holds;
    OutboxSame(h, cfg, w, Next(h, cfg, w, Stop));
  }

  lemma StepKeepsInv(h: Hash, cfg: Config, w: World, s: Step)
    requires Inv(h, cfg, w)
    ensures Inv(h, cfg, Next(h, cfg, w, s))
  {
    hide Inv;
    if w.run.None? {
      if s.Start? {
        StartOk(h, cfg, w, s.runId);
      }
    } else {
      match s
      case Start(_) =>
      case Note(record) => NoteOk(h, cfg, w, record);
      case BeginFlush(tid, record) => BeginFlushOk(h, cfg, w, tid, record);
      case Claim(tid) => ClaimOk(h, cfg, w, tid);
      case Spool(verdict) => SpoolOk(h, cfg, w, verdict);
      case Finish => FinishOk(h, cfg, w);
      case Effect(tid) => EffectOk(h, cfg, w, tid);
      case BeginDrain => BeginDrainOk(h, cfg, w);
      case Stop => StopOk(h, cfg, w);
    }
  }

  lemma StartsOk(h: Hash, cfg: Config)
    ensures Inv(h, cfg, NOTHING)
  {
  }

  lemma {:induction false} Reachable(h: Hash, cfg: Config, run: seq<Step>, k: nat)
    requires k <= |run|
    ensures Inv(h, cfg, At(h, cfg, NOTHING, run, k))
  {
    hide Inv, Next;
    if k == 0 {
      StartsOk(h, cfg);
    } else {
      Reachable(h, cfg, run, k - 1);
      StepKeepsInv(h, cfg, At(h, cfg, NOTHING, run, k - 1), run[k - 1]);
    }
  }
}
