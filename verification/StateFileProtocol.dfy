/** Servers and offline resolvers sharing one state file through two locks: the owner lock a server
    holds while the file is loaded, and the lock held across each read-modify-write cycle.

    Any number of processes run at once; one step is one lock operation, read, write or crash. */
module StateFileProtocol {
  import opened Lifecycle
  import opened Text
  import opened Records
  import opened OperationStore

  /** A copy of the file, and the version it was read at or last written as. */
  datatype Copy = Copy(ops: Ops, base: nat)

  datatype Process =
    // a server
    | Launched                            // about to try the owner lock
    | Owning                              // has it; about to look whether the file exists
    | AwaitingRead                        // waiting for the read-modify-write lock
    | Reading                             // has both
    | Recovering(copy: Copy)              // has both; about to write what it recovers
    | Serving(copy: Copy)                 // loaded
    | AwaitingWrite(copy: Copy, next: Ops)
    | Persisting(copy: Copy, next: Ops)   // has both
    // an offline resolver
    | Resolving(id: string, disposition: Disposition)    // waiting for the read-modify-write lock
    | Probing(id: string, disposition: Disposition)      // has it; about to try the owner lock
    | Probed(id: string, disposition: Disposition)       // has both; about to let the owner lock go
    | Opening(id: string, disposition: Disposition)      // about to read
    | Settling(id: string, disposition: Disposition, copy: Copy)

  predicate HoldsOwner(p: Process) {
    p.Owning? || p.AwaitingRead? || p.Reading? || p.Recovering? || IsLoaded(p) || p.Probed?
  }

  predicate HoldsCycle(p: Process) {
    p.Reading? || p.Recovering? || p.Persisting? || p.Probing? || p.Probed? || p.Opening? || p.Settling?
  }

  /** The file belongs to this server. */
  predicate IsLoaded(p: Process) { p.Serving? || p.AwaitingWrite? || p.Persisting? }

  predicate Writes(p: Process) { p.Recovering? || p.Persisting? || p.Settling? }

  datatype World = World(
    file: Option<Ops>, version: nat, owner: Option<nat>, cycle: Option<nat>,
    processes: map<nat, Process>, resolved: map<string, Operation>)

  // ---- one process -------------------------------------------------------------

  /** What a process can see when it moves. */
  datatype View = View(file: Option<Ops>, version: nat, ownerFree: bool, cycleFree: bool)

  /** Where it goes (`None`: it exits, dropping its locks), what it leaves in the file, and the
      resolution it reports as done. */
  datatype Move = Move(next: Option<Process>, written: Option<Ops>, done: Option<Resolution>)

  datatype Resolution = Resolution(id: string, record: Operation)

  function To(p: Process): Move { Move(Some(p), None, None) }
  const EXIT := Move(None, None, None)

  /** What a write of `ops` leaves behind. */
  function Left(ops: Ops, io: WriteResult): Option<Ops> {
    if io.FailedOld? then None else Some(ops)
  }

  function VersionAfter(v: nat, written: Option<Ops>): nat {
    if written.Some? then v + 1 else v
  }

  function Recover(copy: Copy, v: View, policy: StagedRecovery, io: WriteResult): Move {
    var ops := RecoverOps(copy.ops, policy);
    if ops == copy.ops then To(Serving(copy))
    else Move(if io.Durable? then Some(Serving(Copy(ops, v.version + 1))) else None, Left(ops, io), None)
  }

  function Save(copy: Copy, next: Ops, v: View, io: WriteResult): Move {
    var written := Left(next, io);
    Move(Some(Serving(Copy(if io.Durable? then next else copy.ops, VersionAfter(v.version, written)))), written, None)
  }

  function Settle(copy: Copy, id: string, d: Disposition, io: WriteResult): Move {
    if id !in copy.ops || OperationTerminal(copy.ops[id].state) then EXIT
    else
      var r := Resolved(copy.ops[id], d);
      Move(None, Left(copy.ops[id := r], io), if io.Durable? then Some(Resolution(id, r)) else None)
  }

  function Act(p: Process, v: View, policy: StagedRecovery, io: WriteResult): Move {
    match p
    case Launched => if v.ownerFree then To(Owning) else EXIT
    case Owning => if v.file.None? then To(Serving(Copy(map[], v.version))) else To(AwaitingRead)
    case AwaitingRead => if v.cycleFree then To(Reading) else To(p)
    case Reading => if v.file.None? then EXIT else To(Recovering(Copy(v.file.value, v.version)))
    case Recovering(copy) => Recover(copy, v, policy, io)
    case Serving(_) => To(p)
    case AwaitingWrite(copy, next) => if v.cycleFree then To(Persisting(copy, next)) else To(p)
    case Persisting(copy, next) => Save(copy, next, v, io)
    case Resolving(id, d) => if v.cycleFree then To(Probing(id, d)) else To(p)
    case Probing(id, d) => if v.ownerFree then To(Probed(id, d)) else EXIT
    case Probed(id, d) => To(Opening(id, d))
    case Opening(id, d) => if v.file.None? then EXIT else To(Settling(id, d, Copy(v.file.value, v.version)))
    case Settling(id, d, copy) => Settle(copy, id, d, io)
  }

  // ---- the system --------------------------------------------------------------

  datatype Step =
    | Launch(pid: nat)
    | Resolve(pid: nat, id: string, disposition: Disposition)
    | Go(pid: nat, policy: StagedRecovery, io: WriteResult)
    | Change(pid: nat, ops: Ops)
    | Persist(pid: nat, ops: Ops)
    | Kill(pid: nat)

  /** What a server may do to its copy: finished operations stay as they are or are evicted, which is
      what every server does (`OperationTheorems.ServersKeepFinished`), and a new operation gets an id
      no resolution was made for, which is what drawing ids at random is for. */
  ghost predicate Honest(w: World, before: Ops, after: Ops) {
    && KeepsFinished(before, after)
    && forall id :: id in after && id !in before ==> id !in w.resolved
  }

  function ViewOf(w: World): View {
    View(w.file, w.version, w.owner.None?, w.cycle.None?)
  }

  ghost function MoveOf(w: World, s: Step): Move {
    var here := s.pid in w.processes;
    var serving := here && w.processes[s.pid].Serving?;
    match s
    case Launch(_) => if here then To(w.processes[s.pid]) else To(Launched)
    case Resolve(_, id, d) => if here then To(w.processes[s.pid]) else To(Resolving(id, d))
    case Go(_, policy, io) => if here then Act(w.processes[s.pid], ViewOf(w), policy, io) else EXIT
    case Change(_, ops) =>
      if serving && Honest(w, w.processes[s.pid].copy.ops, ops)
      then To(Serving(w.processes[s.pid].copy.(ops := ops)))
      else if here then To(w.processes[s.pid]) else EXIT
    case Persist(_, ops) =>
      if serving && Honest(w, w.processes[s.pid].copy.ops, ops)
      then To(AwaitingWrite(w.processes[s.pid].copy, ops))
      else if here then To(w.processes[s.pid]) else EXIT
    case Kill(_) => EXIT
  }

  function LockAfter(lock: Option<nat>, pid: nat, held: bool): Option<nat> {
    if held then Some(pid) else if lock == Some(pid) then None else lock
  }

  function Apply(w: World, pid: nat, m: Move): World {
    World(
      if m.written.Some? then m.written else w.file,
      VersionAfter(w.version, m.written),
      LockAfter(w.owner, pid, m.next.Some? && HoldsOwner(m.next.value)),
      LockAfter(w.cycle, pid, m.next.Some? && HoldsCycle(m.next.value)),
      if m.next.Some? then w.processes[pid := m.next.value] else w.processes - {pid},
      if m.done.Some? then w.resolved[m.done.value.id := m.done.value.record] else w.resolved)
  }

  ghost function Next(w: World, s: Step): World {
    Apply(w, s.pid, MoveOf(w, s))
  }

  ghost function At(start: World, run: seq<Step>, k: nat): World
    requires k <= |run|
  {
    if k == 0 then start else Next(At(start, run, k - 1), run[k - 1])
  }

  predicate Initial(w: World) {
    w.owner.None? && w.cycle.None? && w.processes == map[] && w.resolved == map[]
  }

  // ---- what one move may do ------------------------------------------------------

  function CopyOf(p: Process): Option<Copy> {
    match p
    case Recovering(c) => Some(c) case Serving(c) => Some(c) case AwaitingWrite(c, _) => Some(c)
    case Persisting(c, _) => Some(c) case Settling(_, _, c) => Some(c)
    case _ => None
  }

  predicate UpToDate(p: Process, version: nat) {
    CopyOf(p).Some? ==> CopyOf(p).value.base == version
  }

  /** A process between reading and writing holds exactly what the file holds. */
  predicate Faithful(p: Process, file: Option<Ops>) {
    p.Recovering? || p.Settling? ==> file == Some(p.copy.ops)
  }

  /** Has seen that the file exists. */
  predicate SawFile(p: Process) { p.AwaitingRead? || p.Reading? || p.Recovering? || p.Settling? }

  predicate Disciplined(p: Option<Process>, v: View, m: Move) {
    && (m.written.Some? ==> p.Some? && Writes(p.value))
    && (m.next.Some? ==>
          && Orderly(p, v, m.next.value)
          && UpToDate(m.next.value, VersionAfter(v.version, m.written))
          && Faithful(m.next.value, if m.written.Some? then m.written else v.file))
  }

  predicate Orderly(p: Option<Process>, v: View, n: Process) {
    && (HoldsOwner(n) ==> v.ownerFree || (p.Some? && HoldsOwner(p.value)))
    && (HoldsCycle(n) ==> v.cycleFree || (p.Some? && HoldsCycle(p.value)))
    && (SawFile(n) ==> v.file.Some? || (p.Some? && SawFile(p.value)))
    && (IsLoaded(n) ==> v.file.None? || (p.Some? && (IsLoaded(p.value) || p.value.Recovering?)))
    && (n.Settling? ==> p == Some(n) || (v.file.Some? && p.Some? && p.value.Opening?))
    && (n.Opening? ==> p == Some(n) || (p.Some? && p.value.Probed?))
  }

  function Before(w: World, pid: nat): Option<Process> {
    if pid in w.processes then Some(w.processes[pid]) else None
  }

  lemma MovesAreDisciplined(w: World, s: Step)
    requires s.pid in w.processes ==> UpToDate(w.processes[s.pid], w.version) && Faithful(w.processes[s.pid], w.file)
    ensures Disciplined(Before(w, s.pid), ViewOf(w), MoveOf(w, s))
  {
    hide RecoverOps, Resolved, Honest;
  }

  // ---- what every step keeps --------------------------------------------------------

  predicate Locked(w: World, pid: nat) {
    pid in w.processes ==>
      && (HoldsOwner(w.processes[pid]) <==> w.owner == Some(pid))
      && (HoldsCycle(w.processes[pid]) <==> w.cycle == Some(pid))
  }

  predicate Fresh(w: World, pid: nat) {
    pid in w.processes ==>
      && UpToDate(w.processes[pid], w.version) && Faithful(w.processes[pid], w.file)
      && (SawFile(w.processes[pid]) ==> w.file.Some?)
  }

  /** A loaded server and a resolver with a copy never coexist: either the resolver finds the owner
      lock taken, or the server is still waiting to read, or there is no file to resolve. */
  predicate Apart(w: World, s: nat, r: nat) {
    s in w.processes && r in w.processes && IsLoaded(w.processes[s]) ==>
      && !w.processes[r].Settling?
      && (w.processes[r].Opening? ==> w.file.None?)
  }

  ghost predicate Inv(w: World) {
    && (forall pid {:trigger Locked(w, pid)} :: Locked(w, pid))
    && (w.owner.Some? ==> w.owner.value in w.processes)
    && (w.cycle.Some? ==> w.cycle.value in w.processes)
    && (forall pid {:trigger Fresh(w, pid)} :: Fresh(w, pid))
    && (forall s, r {:trigger Apart(w, s, r)} :: Apart(w, s, r))
  }

  /** Two processes that both hold one lock are one process. */
  lemma Alone(w: World, p: nat, q: nat)
    requires Inv(w) && p in w.processes && q in w.processes && p != q
    ensures !(HoldsOwner(w.processes[p]) && HoldsOwner(w.processes[q]))
    ensures !(HoldsCycle(w.processes[p]) && HoldsCycle(w.processes[q]))
  {
    assert Locked(w, p) && Locked(w, q);
  }

  /** Whoever is about to write is the only one with a copy. */
  lemma WriterAlone(w: World, p: nat, q: nat)
    requires Inv(w) && p in w.processes && q in w.processes && p != q && Writes(w.processes[p])
    ensures CopyOf(w.processes[q]).None? && !IsLoaded(w.processes[q])
  {
    Alone(w, p, q);
    assert Apart(w, q, p);
  }

  lemma LockedOk(w: World, pid: nat, m: Move, q: nat)
    requires Inv(w) && Disciplined(Before(w, pid), ViewOf(w), m)
    ensures Locked(Apply(w, pid, m), q)
  {
    assert Locked(w, pid) && Locked(w, q);
    hide UpToDate;
  }

  lemma FreshOk(w: World, pid: nat, m: Move, q: nat)
    requires Inv(w) && Disciplined(Before(w, pid), ViewOf(w), m)
    ensures Fresh(Apply(w, pid, m), q)
  {
    assert Fresh(w, pid) && Fresh(w, q);
    if q != pid && q in w.processes && m.written.Some? {
      WriterAlone(w, pid, q);
    }
    hide Inv, LockAfter;
  }

  lemma ApartOk(w: World, pid: nat, m: Move, s: nat, r: nat)
    requires Inv(w) && Disciplined(Before(w, pid), ViewOf(w), m)
    ensures Apart(Apply(w, pid, m), s, r)
  {
    assert Apart(w, s, r) && Fresh(w, r) && Fresh(w, s);
    if s in w.processes && r in w.processes && s != r {
      Alone(w, s, r);
    }
    if pid in w.processes && r in w.processes && pid != r && m.written.Some? {
      Alone(w, pid, r);
    }
    hide Inv, LockAfter, UpToDate;
  }

  lemma StepKeepsInv(w: World, s: Step)
    requires Inv(w)
    ensures Inv(Next(w, s))
  {
    var m := MoveOf(w, s);
    var n := Next(w, s);
    assert Fresh(w, s.pid);
    MovesAreDisciplined(w, s);
    assert n == Apply(w, s.pid, m);
    hide MoveOf, Next;
    forall q ensures Locked(n, q) { LockedOk(w, s.pid, m, q); }
    forall q ensures Fresh(n, q) { FreshOk(w, s.pid, m, q); }
    forall p, r ensures Apart(n, p, r) { ApartOk(w, s.pid, m, p, r); }
    hide Locked, Fresh, Apart, Disciplined;
  }

  lemma {:induction false} Reachable(start: World, run: seq<Step>, k: nat)
    requires Initial(start) && k <= |run|
    ensures Inv(At(start, run, k))
  {
    if k > 0 {
      Reachable(start, run, k - 1);
      hide Inv, Next;
      StepKeepsInv(At(start, run, k - 1), run[k - 1]);
    }
  }

  // ---- theorems --------------------------------------------------------------------

  /** No lost update: whoever is about to replace the file holds a copy no other process has
      written behind, so no write ever reverts another's. */
  lemma EveryWriteIsUpToDate(start: World, run: seq<Step>, k: nat, pid: nat)
    requires Initial(start) && k <= |run|
    requires var w := At(start, run, k); pid in w.processes && Writes(w.processes[pid])
    ensures var w := At(start, run, k);
            && CopyOf(w.processes[pid]).value.base == w.version
            && (!w.processes[pid].Persisting? ==> w.file == Some(CopyOf(w.processes[pid]).value.ops))
  {
    Reachable(start, run, k);
    assert Fresh(At(start, run, k), pid);
  }

  /** While a server has the file loaded, nobody else replaces it. */
  lemma OnlyTheServerWrites(start: World, run: seq<Step>, k: nat, pid: nat)
    requires Initial(start) && k < |run|
    requires var w := At(start, run, k); pid in w.processes && IsLoaded(w.processes[pid])
    requires run[k].pid != pid
    ensures At(start, run, k + 1).file == At(start, run, k).file
    ensures At(start, run, k + 1).version == At(start, run, k).version
  {
    var w := At(start, run, k);
    var s := run[k];
    Reachable(start, run, k);
    assert Fresh(w, s.pid);
    MovesAreDisciplined(w, s);
    if MoveOf(w, s).written.Some? {
      WriterAlone(w, s.pid, pid);
    }
    hide Inv, MoveOf, Disciplined;
    assert At(start, run, k + 1) == Apply(w, s.pid, MoveOf(w, s));
  }

  /** The read-modify-write lock is never held by a process that waits: its holder can always
      move, so the blocking acquisitions cannot deadlock. */
  lemma TheCycleLockKeepsMoving(start: World, run: seq<Step>, k: nat, policy: StagedRecovery, io: WriteResult)
    requires Initial(start) && k <= |run| && At(start, run, k).cycle.Some?
    ensures var w := At(start, run, k);
            var pid := w.cycle.value;
            pid in w.processes && Act(w.processes[pid], ViewOf(w), policy, io).next != Some(w.processes[pid])
  {
    var w := At(start, run, k);
    Reachable(start, run, k);
    assert Locked(w, w.cycle.value);
    hide RecoverOps, Resolved;
  }

  // ---- resolutions -------------------------------------------------------------------

  predicate Respects(ops: Option<Ops>, resolved: map<string, Operation>, id: string) {
    id in resolved && ops.Some? && id in ops.value ==> ops.value[id] == resolved[id]
  }

  function NextOf(p: Process): Option<Ops> {
    match p
    case AwaitingWrite(_, n) => Some(n)
    case Persisting(_, n) => Some(n)
    case _ => None
  }

  predicate ProcessRespects(p: Process, resolved: map<string, Operation>, id: string) {
    && Respects(if CopyOf(p).Some? then Some(CopyOf(p).value.ops) else None, resolved, id)
    && Respects(NextOf(p), resolved, id)
  }

  /** The file and every copy of it agree with what operators have resolved. */
  ghost predicate Honoured(w: World, id: string) {
    && (id in w.resolved ==> OperationTerminal(w.resolved[id].state))
    && Respects(w.file, w.resolved, id)
    && (forall pid :: pid in w.processes ==> ProcessRespects(w.processes[pid], w.resolved, id))
  }

  lemma RecoverRespects(ops: Ops, policy: StagedRecovery, resolved: map<string, Operation>, id: string)
    requires Respects(Some(ops), resolved, id) && (id in resolved ==> OperationTerminal(resolved[id].state))
    ensures Respects(Some(RecoverOps(ops, policy)), resolved, id)
  {
  }

  lemma ActHonours(p: Process, v: View, policy: StagedRecovery, io: WriteResult,
                   resolved: map<string, Operation>, id: string)
    requires ProcessRespects(p, resolved, id) && Respects(v.file, resolved, id) && !p.Settling?
    requires id in resolved ==> OperationTerminal(resolved[id].state)
    ensures var m := Act(p, v, policy, io);
            && m.done.None? && Respects(m.written, resolved, id)
            && (m.next.Some? ==> ProcessRespects(m.next.value, resolved, id))
  {
    if p.Recovering? {
      RecoverRespects(p.copy.ops, policy, resolved, id);
    }
    hide RecoverOps;
  }

  /** A resolver writes the file it reports on, and never resolves anything twice. */
  lemma SettleHonours(copy: Copy, key: string, d: Disposition, io: WriteResult,
                      resolved: map<string, Operation>, id: string)
    requires Respects(Some(copy.ops), resolved, id)
    requires id in resolved ==> OperationTerminal(resolved[id].state)
    ensures var m := Settle(copy, key, d, io);
            && m.next.None?
            && (m.done.Some? ==>
                  && m.written.Some? && OperationTerminal(m.done.value.record.state)
                  && (m.done.value.id == id ==> id !in resolved && m.written.value[id] == m.done.value.record))
            && Respects(m.written, resolved, id)
  {
    hide StateName;
  }

  lemma MoveHonours(w: World, s: Step, id: string)
    requires Honoured(w, id)
    ensures var n := Next(w, s);
            var m := MoveOf(w, s);
            && (id in n.resolved ==> OperationTerminal(n.resolved[id].state))
            && (id in w.resolved ==> id in n.resolved && n.resolved[id] == w.resolved[id])
            && Respects(m.written, n.resolved, id)
            && (m.next.Some? ==> ProcessRespects(m.next.value, n.resolved, id))
            && (m.done.Some? ==> m.written.Some?)
  {
    if s.Go? && s.pid in w.processes {
      var p := w.processes[s.pid];
      if p.Settling? {
        SettleHonours(p.copy, p.id, p.disposition, s.io, w.resolved, id);
      } else {
        ActHonours(p, ViewOf(w), s.policy, s.io, w.resolved, id);
        hide Act;
      }
      hide Settle;
    }
    hide LockAfter;
  }

  lemma HonouredOk(w: World, s: Step, id: string)
    requires Inv(w) && Honoured(w, id)
    ensures Honoured(Next(w, s), id)
  {
    var m := MoveOf(w, s);
    var n := Next(w, s);
    MoveHonours(w, s, id);
    assert Fresh(w, s.pid);
    MovesAreDisciplined(w, s);
    assert n == Apply(w, s.pid, m);
    hide MoveOf, Next, LockAfter;
    forall q | q in n.processes ensures ProcessRespects(n.processes[q], n.resolved, id) {
      if q != s.pid && m.written.Some? {
        WriterAlone(w, s.pid, q);
        assert NextOf(w.processes[q]).None?;
      }
    }
  }

  predicate Has(p: Process, id: string) {
    CopyOf(p).Some? && id in CopyOf(p).value.ops
  }

  lemma {:induction false} ResolutionsHonoured(start: World, run: seq<Step>, k: nat, id: string)
    requires Initial(start) && k <= |run|
    ensures Honoured(At(start, run, k), id)
  {
    if k > 0 {
      ResolutionsHonoured(start, run, k - 1, id);
      Reachable(start, run, k - 1);
      hide Inv, Honoured, Next;
      HonouredOk(At(start, run, k - 1), run[k - 1], id);
    }
  }

  /** A successful offline resolution is final: in every later state, whatever starts, persists,
      resolves or crashes in between, the file and every copy of it that still has the operation
      have it exactly as the operator left it. */
  lemma {:induction false} ResolutionsLast(start: World, run: seq<Step>, i: nat, j: nat, id: string)
    requires Initial(start) && i <= j <= |run| && id in At(start, run, i).resolved
    ensures var r := At(start, run, i).resolved[id];
            var n := At(start, run, j);
            && id in n.resolved && n.resolved[id] == r
            && (n.file.Some? && id in n.file.value ==> n.file.value[id] == r)
            && (forall pid :: pid in n.processes && Has(n.processes[pid], id)
                  ==> CopyOf(n.processes[pid]).value.ops[id] == r)
    decreases j
  {
    ResolutionsHonoured(start, run, j, id);
    if i < j {
      ResolutionsLast(start, run, i, j - 1, id);
      ResolutionsHonoured(start, run, j - 1, id);
      MoveHonours(At(start, run, j - 1), run[j - 1], id);
      assert At(start, run, j) == Next(At(start, run, j - 1), run[j - 1]);
    }
    hide Next, MoveOf;
    var n := At(start, run, j);
    forall pid | pid in n.processes && Has(n.processes[pid], id)
      ensures CopyOf(n.processes[pid]).value.ops[id] == At(start, run, i).resolved[id]
    {
      assert ProcessRespects(n.processes[pid], n.resolved, id);
    }
  }

  // ---- left alone, everyone gets there ---------------------------------------------------

  /** The world with this process in it, and the locks as given. */
  function With(w: World, pid: nat, p: Process, owner: Option<nat>, cycle: Option<nat>): World {
    w.(processes := w.processes[pid := p], owner := owner, cycle := cycle)
  }

  lemma MovesOn(w: World, pid: nat, p: Process, q: Process, owner: Option<nat>, cycle: Option<nat>)
    requires Act(p, View(w.file, w.version, owner.None?, cycle.None?), Retain, Durable) == To(q)
    ensures Next(With(w, pid, p, owner, cycle), Go(pid, Retain, Durable))
         == With(w, pid, q, LockAfter(owner, pid, HoldsOwner(q)), LockAfter(cycle, pid, HoldsCycle(q)))
  {
    hide Act;
    assert w.processes[pid := p][pid := q] == w.processes[pid := q];
  }

  lemma Arrives(w: World, pid: nat, p: Process, s: Step)
    requires pid !in w.processes && s.pid == pid && MoveOf(w, s) == To(p) && !HoldsOwner(p) && !HoldsCycle(p)
    requires w.owner.None? && w.cycle.None?
    ensures Next(w, s) == With(w, pid, p, None, None)
  {
    hide MoveOf;
  }

  /** One process's moves, after its first step, every write durable. */
  function Undisturbed(first: Step, n: nat): seq<Step> {
    [first] + seq(n, k requires 0 <= k < n => Go(first.pid, Retain, Durable))
  }

  lemma Chain(w: World, run: seq<Step>, k: nat, v: World, n: World)
    requires k < |run| && At(w, run, k) == v && Next(v, run[k]) == n
    ensures At(w, run, k + 1) == n
  {
  }

  lemma ResolverOpens(w: World, pid: nat, id: string, d: Disposition)
    requires w.owner.None? && w.cycle.None? && pid !in w.processes
    ensures At(w, Undisturbed(Resolve(pid, id, d), 5), 4) == With(w, pid, Opening(id, d), None, Some(pid))
  {
    var run := Undisturbed(Resolve(pid, id, d), 5);
    assert At(w, run, 0) == w;
    hide At, Next;
    Arrives(w, pid, Resolving(id, d), run[0]);
    Chain(w, run, 0, w, With(w, pid, Resolving(id, d), None, None));
    MovesOn(w, pid, Resolving(id, d), Probing(id, d), None, None);
    Chain(w, run, 1, With(w, pid, Resolving(id, d), None, None), With(w, pid, Probing(id, d), None, Some(pid)));
    MovesOn(w, pid, Probing(id, d), Probed(id, d), None, Some(pid));
    Chain(w, run, 2, With(w, pid, Probing(id, d), None, Some(pid)), With(w, pid, Probed(id, d), Some(pid), Some(pid)));
    MovesOn(w, pid, Probed(id, d), Opening(id, d), Some(pid), Some(pid));
    Chain(w, run, 3, With(w, pid, Probed(id, d), Some(pid), Some(pid)), With(w, pid, Opening(id, d), None, Some(pid)));
  }

  /** A resolver nobody gets in the way of, with no server running, settles an unfinished operation. */
  lemma ResolverSucceeds(w: World, pid: nat, id: string, d: Disposition)
    requires w.owner.None? && w.cycle.None? && pid !in w.processes
    requires w.file.Some? && id in w.file.value && !OperationTerminal(w.file.value[id].state)
    ensures var n := At(w, Undisturbed(Resolve(pid, id, d), 5), 6);
            var r := Resolved(w.file.value[id], d);
            && n.owner.None? && n.cycle.None? && n.processes == w.processes
            && n.file == Some(w.file.value[id := r]) && id in n.resolved && n.resolved[id] == r
  {
    hide At, Next, Resolved;
    var run := Undisturbed(Resolve(pid, id, d), 5);
    var copy := Copy(w.file.value, w.version);
    ResolverOpens(w, pid, id, d);
    MovesOn(w, pid, Opening(id, d), Settling(id, d, copy), None, Some(pid));
    Chain(w, run, 4, With(w, pid, Opening(id, d), None, Some(pid)),
          With(w, pid, Settling(id, d, copy), None, Some(pid)));
    Settles(w, pid, id, d);
    Chain(w, run, 5, With(w, pid, Settling(id, d, copy), None, Some(pid)),
          Next(With(w, pid, Settling(id, d, copy), None, Some(pid)), run[5]));
  }

  lemma Settles(w: World, pid: nat, id: string, d: Disposition)
    requires w.file.Some? && id in w.file.value && !OperationTerminal(w.file.value[id].state) && pid !in w.processes
    ensures var v := With(w, pid, Settling(id, d, Copy(w.file.value, w.version)), None, Some(pid));
            var r := Resolved(w.file.value[id], d);
            Next(v, Go(pid, Retain, Durable))
            == w.(file := Some(w.file.value[id := r]), version := w.version + 1, resolved := w.resolved[id := r],
                  owner := None, cycle := None)
  {
    hide Resolved;
    assert w.processes[pid := Settling(id, d, Copy(w.file.value, w.version))] - {pid} == w.processes;
  }

  /** A server nobody gets in the way of comes to serve what it recovers from the file. */
  lemma ServerLoads(w: World, pid: nat)
    requires w.owner.None? && w.cycle.None? && pid !in w.processes && w.file.Some?
    ensures var n := At(w, Undisturbed(Launch(pid), 5), 6);
            && n.owner == Some(pid) && n.cycle.None? && n.file == Some(RecoverOps(w.file.value, Retain))
            && pid in n.processes && n.processes[pid].Serving? && n.processes[pid].copy.ops == n.file.value
  {
    var run := Undisturbed(Launch(pid), 5);
    var copy := Copy(w.file.value, w.version);
    assert At(w, run, 0) == w;
    hide At, Next, RecoverOps;
    Arrives(w, pid, Launched, run[0]);
    Chain(w, run, 0, w, With(w, pid, Launched, None, None));
    MovesOn(w, pid, Launched, Owning, None, None);
    Chain(w, run, 1, With(w, pid, Launched, None, None), With(w, pid, Owning, Some(pid), None));
    MovesOn(w, pid, Owning, AwaitingRead, Some(pid), None);
    Chain(w, run, 2, With(w, pid, Owning, Some(pid), None), With(w, pid, AwaitingRead, Some(pid), None));
    MovesOn(w, pid, AwaitingRead, Reading, Some(pid), None);
    Chain(w, run, 3, With(w, pid, AwaitingRead, Some(pid), None), With(w, pid, Reading, Some(pid), Some(pid)));
    MovesOn(w, pid, Reading, Recovering(copy), Some(pid), Some(pid));
    Chain(w, run, 4, With(w, pid, Reading, Some(pid), Some(pid)), With(w, pid, Recovering(copy), Some(pid), Some(pid)));
    Recovers(w, pid);
    Chain(w, run, 5, With(w, pid, Recovering(copy), Some(pid), Some(pid)),
          Next(With(w, pid, Recovering(copy), Some(pid), Some(pid)), run[5]));
  }

  lemma Recovers(w: World, pid: nat)
    requires w.file.Some?
    ensures var v := With(w, pid, Recovering(Copy(w.file.value, w.version)), Some(pid), Some(pid));
            var n := Next(v, Go(pid, Retain, Durable));
            && n.owner == Some(pid) && n.cycle.None? && n.file == Some(RecoverOps(w.file.value, Retain))
            && pid in n.processes && n.processes[pid].Serving? && n.processes[pid].copy.ops == n.file.value
  {
    hide RecoverOps;
  }

  /** And what it then writes reaches the file. */
  lemma ServerSaves(w: World, pid: nat, ops: Ops)
    requires w.cycle.None? && pid in w.processes && w.processes[pid].Serving? && w.owner == Some(pid)
    requires Honest(w, w.processes[pid].copy.ops, ops)
    ensures var n := At(w, Undisturbed(Persist(pid, ops), 2), 3);
            && n.cycle.None? && n.file == Some(ops) && pid in n.processes && n.processes[pid].Serving?
            && n.processes[pid].copy.ops == ops
  {
    hide Honest;
    var run := Undisturbed(Persist(pid, ops), 2);
    var copy := w.processes[pid].copy;
    var w1 := With(w, pid, AwaitingWrite(copy, ops), Some(pid), None);
    var w2 := With(w, pid, Persisting(copy, ops), Some(pid), Some(pid));
    assert At(w, run, 1) == w1 by { assert At(w, run, 0) == w; }
    MovesOn(w, pid, AwaitingWrite(copy, ops), Persisting(copy, ops), Some(pid), None);
    Chain(w, run, 1, w1, w2);
    Chain(w, run, 2, w2, Next(w2, run[2]));
  }
}
