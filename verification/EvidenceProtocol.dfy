/** The recorder, its spool and its restarts as one state machine: records are appended and
    segments flushed by any number of threads, the spool may refuse any segment, the process may
    stop anywhere, and the next run resumes from the newest segment the outbox holds. */
module EvidenceProtocol {
  import opened Text
  import opened Evidence
  import opened EvidenceChain

  /** What spooling a segment does. The write may land even though an error is reported. */
  datatype Verdict = Accepted | Refused | RefusedButWritten

  datatype Phase = Waiting | Flushing | Cleared

  /** A thread inside `apply_intent` (with its request id) or `result_receipt`, past its append. */
  datatype Task = Task(intent: Option<string>, phase: Phase)

  /** One process lifetime. `base` is the chain it resumed from; `passed` are the segments it is
      done with, `inflight` those a flush has claimed, `closed` those waiting, and then the open one. */
  datatype Run = Run(
    base: seq<Closed>, passed: seq<Closed>, inflight: seq<Closed>, closed: seq<Closed>,
    current: Segment, nextSeq: nat, tasks: map<nat, Task>, flusher: Option<nat>, draining: bool)

  /** `durable` is the chain up to the newest segment in the outbox, and `places[i]` says which of
      its segments outbox line `i` is. `appended` is what this run was asked to record. */
  datatype World = World(
    outbox: seq<Closed>, durable: seq<Closed>, places: seq<nat>, run: Option<Run>,
    appended: seq<Record>, effects: set<string>, lossy: bool)

  datatype Config = Config(serverId: string, perSegment: nat, start: string)

  datatype Step =
    | Start(runId: string)
    | Note(record: Record)
    | BeginFlush(tid: nat, record: Record)
    | Claim(tid: nat)
    | Spool(verdict: Verdict)
    | Finish
    | Effect(tid: nat)
    | BeginDrain
    | Stop

  // ---- the recorder -----------------------------------------------------------------

  /** Close the open segment and start the next, linked to its head; an empty one stays open. */
  function Roll(r: Run): Run {
    if r.current.records == [] then r
    else
      var c := Close(r.current);
      r.(closed := r.closed + [c],
         current := NewSegment(r.current.runId, r.current.serverId, r.nextSeq, c.headHash),
         nextSeq := r.nextSeq + 1)
  }

  function AppendRecord(h: Hash, cfg: Config, r: Run, record: Record): Run {
    var a := Append(h, r.current, record);
    if a.Err? then r
    else
      var n := r.(current := a.segment);
      if |n.current.records| >= cfg.perSegment then Roll(n) else n
  }

  /** A flush or a drain takes everything the recorder holds, in one go. */
  function ClaimAll(r: Run): Run {
    var n := Roll(r);
    n.(inflight := n.closed, closed := [])
  }

  function Own(r: Run): seq<Closed> { r.passed + r.inflight + r.closed }

  function Path(r: Run): seq<Closed> { r.base + Own(r) }

  /** Records the recorder is handed: well formed, envelope left blank, metadata shallow. */
  predicate Recordable(r: Record) { Storable(r) && Blank(r) && Shallow(r) }

  // ---- the spool ----------------------------------------------------------------------

  /** The head a new run continues from. */
  function ResumeHead(cfg: Config, outbox: seq<Closed>): string {
    if outbox == [] then cfg.start else outbox[|outbox| - 1].headHash
  }

  function Written(w: World, r: Run): World
    requires r.inflight != []
  {
    var k := |r.base| + |r.passed|;
    w.(outbox := w.outbox + [r.inflight[0]], places := w.places + [k], durable := r.base + r.passed + [r.inflight[0]])
  }

  function Requeue(r: Run, tid: nat): Run {
    r.(closed := r.inflight + r.closed, inflight := [], flusher := None, tasks := r.tasks - {tid})
  }

  function Pass(r: Run): Run
    requires r.inflight != []
  {
    r.(passed := r.passed + [r.inflight[0]], inflight := r.inflight[1..])
  }

  function SpoolOne(w: World, r: Run, verdict: Verdict): World
    requires r.inflight != []
  {
    var n := if verdict.Refused? then w else Written(w, r);
    if r.draining then n.(run := Some(Pass(r)), lossy := w.lossy || verdict.Refused?)
    else if verdict.Accepted? then n.(run := Some(Pass(r)))
    else if r.flusher.Some? then n.(run := Some(Requeue(r, r.flusher.value)))
    else w
  }

  function NewRun(cfg: Config, w: World, runId: string): Run {
    Run(w.durable, [], [], [], NewSegment(runId, cfg.serverId, 0, ResumeHead(cfg, w.outbox)), 1, map[], None, false)
  }

  function Next(h: Hash, cfg: Config, w: World, s: Step): World {
    if w.run.None? then
      if s.Start? then w.(run := Some(NewRun(cfg, w, s.runId)), appended := []) else w
    else
      var r := w.run.value;
      match s
      case Start(_) => w
      case Note(record) =>
        if !Recordable(record) || r.draining then w
        else w.(run := Some(AppendRecord(h, cfg, r, record)), appended := w.appended + [record])
      case BeginFlush(tid, record) =>
        if !Recordable(record) || r.draining || tid in r.tasks then w
        else
          var n := AppendRecord(h, cfg, r, record);
          var intent := if record.detail.ApplyIntent? then Some(record.requestId) else None;
          w.(run := Some(n.(tasks := n.tasks[tid := Task(intent, Waiting)])), appended := w.appended + [record])
      case Claim(tid) =>
        if tid !in r.tasks || !r.tasks[tid].phase.Waiting? || r.flusher.Some? || r.draining then w
        else
          var n := ClaimAll(r);
          w.(run := Some(n.(flusher := Some(tid), tasks := n.tasks[tid := n.tasks[tid].(phase := Flushing)])))
      case Spool(verdict) => if r.inflight == [] then w else SpoolOne(w, r, verdict)
      case Finish =>
        if r.flusher.None? || r.inflight != [] || r.flusher.value !in r.tasks then w
        else
          var tid := r.flusher.value;
          w.(run := Some(r.(flusher := None, tasks := r.tasks[tid := r.tasks[tid].(phase := Cleared)])))
      case Effect(tid) =>
        if tid !in r.tasks || !r.tasks[tid].phase.Cleared? then w
        else
          w.(run := Some(r.(tasks := r.tasks - {tid})),
             effects := if r.tasks[tid].intent.Some? then w.effects + {r.tasks[tid].intent.value} else w.effects)
      case BeginDrain =>
        if r.tasks != map[] || r.flusher.Some? || r.draining then w
        else w.(run := Some(ClaimAll(r).(draining := true)))
      case Stop => w.(run := None)
  }

  function At(h: Hash, cfg: Config, start: World, run: seq<Step>, k: nat): World
    requires k <= |run|
  {
    if k == 0 then start else Next(h, cfg, At(h, cfg, start, run, k - 1), run[k - 1])
  }

  const NOTHING := World([], [], [], None, [], {}, false)
}
