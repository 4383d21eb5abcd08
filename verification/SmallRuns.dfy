/** One change set in an otherwise empty store: the worlds that short runs go through. */
module SmallRuns {
  import opened Lifecycle
  import opened Text
  import opened Records
  import opened WriteGate
  import opened ChangeSetStore
  import opened ChangeSetProtocol

  const EMPTY: World := World(Some(map[]), map[])

  function NewPlan(id: string, digest: string): ChangeSet {
    ChangeSet(id, "alice", "fw-01", Plan("", [Json.Str("set")], "p", [], None), digest, Planned, None, None, 100,
              None, None, false)
  }

  /** A world that holds one change set, in memory and in the file. */
  function Holding(r: ChangeSet): World { World(Some(map[r.id := r]), map[r.id := r]) }

  lemma PlanIsStored(cfg: Config, id: string, digest: string)
    requires cfg.maxChangeSets > 0
    ensures Next(cfg, EMPTY, InsertStep(NewPlan(id, digest), 0, Durable, Durable)) == Holding(NewPlan(id, digest))
  {
    var m: Sets := map[];
    assert Sweep(m, 0) == m && Evict(m, cfg.maxChangeSets) == m;
    assert Normalise(NewPlan(id, digest)) == NewPlan(id, digest);
  }

  /** An accepted write over the only record leaves the record written. */
  lemma WriteIsStored(cfg: Config, c: ChangeSet, n: ChangeSet)
    requires n.id == c.id && Normalise(n) == n && CheckWrite(cfg, Some(c), n, ByUpdate).Done?
    ensures Next(cfg, Holding(c), UpdateStep(n, Durable)) == Holding(n)
    ensures Next(cfg, Holding(c), UpdateFromStep(c.state, n, Durable)) == Holding(n)
    ensures ReplyTo(cfg, Holding(c), UpdateFromStep(c.state, n, Durable)).Done?
    ensures ReplyTo(cfg, Holding(c), UpdateStep(n, Durable)).Done?
  {
    hide CheckWrite, Normalise;
    assert map[c.id := c][c.id := n] == map[n.id := n];
  }
}
