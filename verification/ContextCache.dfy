/** What a proposal said, kept for the change's later records: a bounded first-in-first-out map. */
module ContextCache {

  datatype Context = Context(deviceId: string, principal: string, diffHash: string)

  const BLANK := Context("", "", "")
  const MAX_TRACKED_CHANGES: nat := 1024

  /** The map and the order its keys were first inserted in, oldest first. */
  datatype Cache = Cache(context: map<string, Context>, order: seq<string>)

  const EMPTY := Cache(map[], [])

  ghost predicate Distinct(s: seq<string>) {
    forall i, j :: 0 <= i < j < |s| ==> s[i] != s[j]
  }

  ghost predicate Valid(c: Cache) {
    && Distinct(c.order)
    && (forall k :: k in c.context <==> k in c.order)
    && |c.order| <= MAX_TRACKED_CHANGES
  }

  // ---- the operations on values ------------------------------------------------------

  function Remember(c: Cache, k: string, x: Context): Cache {
    if k in c.context then c.(context := c.context[k := x])
    else
      var room := if |c.order| >= MAX_TRACKED_CHANGES then Cache(c.context - {c.order[0]}, c.order[1..]) else c;
      Cache(room.context[k := x], room.order + [k])
  }

  function Without(s: seq<string>, k: string): seq<string> {
    if s == [] then []
    else if s[0] == k then Without(s[1..], k)
    else [s[0]] + Without(s[1..], k)
  }

  function Forget(c: Cache, k: string): Cache {
    if k in c.context then Cache(c.context - {k}, Without(c.order, k)) else c
  }

  function ContextFor(c: Cache, k: string): Context {
    if k in c.context then c.context[k] else BLANK
  }

  // ---- they keep it in order ------------------------------------------------------------

  lemma {:induction false} WithoutAt(s: seq<string>, k: string)
    requires Distinct(s)
    ensures Distinct(Without(s, k)) && |Without(s, k)| <= |s|
    ensures forall x :: x in Without(s, k) <==> x in s && x != k
  {
    if s != [] {
      assert s == [s[0]] + s[1..];
      assert s[0] !in s[1..];
      WithoutAt(s[1..], k);
    }
  }

  lemma RememberOk(c: Cache, k: string, x: Context)
    requires Valid(c)
    ensures Valid(Remember(c, k, x)) && ContextFor(Remember(c, k, x), k) == x
  {
    if k !in c.context && |c.order| >= MAX_TRACKED_CHANGES {
      assert c.order == [c.order[0]] + c.order[1..];
    }
  }

  lemma ForgetOk(c: Cache, k: string)
    requires Valid(c)
    ensures Valid(Forget(c, k)) && k !in Forget(c, k).context
  {
    WithoutAt(c.order, k);
  }

  lemma {:induction false} SizeIs(c: Cache)
    requires Valid(c)
    ensures |c.context| == |c.order|
    decreases |c.order|
  {
    if c.order == [] {
      assert c.context == map[];
    } else {
      var k := c.order[0];
      assert c.order == [k] + c.order[1..];
      var rest := Cache(c.context - {k}, c.order[1..]);
      SizeIs(rest);
      OneMore(c.context, k);
    }
  }

  lemma OneMore(m: map<string, Context>, k: string)
    requires k in m
    ensures |m| == |m - {k}| + 1
  {
    assert m == (m - {k})[k := m[k]];
  }

  lemma OldestOut(c: Cache)
    requires Valid(c) && c.order != []
    ensures |c.context - {c.order[0]}| == |c.order| - 1
  {
    assert c.order == [c.order[0]] + c.order[1..];
    SizeIs(Cache(c.context - {c.order[0]}, c.order[1..]));
  }

  /** Forgetting a change takes it out of the map and out of the order, and leaves all others as they
      are, in the order they were in. */
  lemma ForgetIs(c: Cache, k: string)
    requires Valid(c)
    ensures var n := Forget(c, k);
            && k !in n.context && k !in n.order && n.context == c.context - {k}
            && (k !in c.context ==> n == c)
            && (forall i :: 0 <= i < |c.order| && c.order[i] == k ==> n.order == c.order[..i] + c.order[i + 1..])
  {
    WithoutAt(c.order, k);
    forall i | 0 <= i < |c.order| && c.order[i] == k
      ensures Without(c.order, k) == c.order[..i] + c.order[i + 1..]
    {
      WithoutIs(c.order, k, i);
    }
  }

  lemma {:induction false} WithoutIs(s: seq<string>, k: string, i: nat)
    requires Distinct(s) && i < |s| && s[i] == k
    ensures Without(s, k) == s[..i] + s[i + 1..]
  {
    if i == 0 {
      assert s[0] == k && forall j :: 0 <= j < |s[1..]| ==> s[1..][j] != k;
      WithoutNothing(s[1..], k);
      assert s[..0] + s[1..] == s[1..];
    } else {
      assert s[0] != k;
      WithoutIs(s[1..], k, i - 1);
      assert [s[0]] + (s[1..][..i - 1] + s[1..][i..]) == s[..i] + s[i + 1..];
    }
  }

  // ---- runs -------------------------------------------------------------------------------

  datatype Step = Propose(key: string, context: Context) | Drop(key: string)

  function Next(c: Cache, s: Step): Cache {
    match s case Propose(k, x) => Remember(c, k, x) case Drop(k) => Forget(c, k)
  }

  function After(c: Cache, run: seq<Step>): Cache {
    if run == [] then c else Next(After(c, run[..|run| - 1]), run[|run| - 1])
  }

  lemma {:induction false} AlwaysValid(c: Cache, run: seq<Step>)
    requires Valid(c)
    ensures Valid(After(c, run))
  {
    if run != [] {
      var before := run[..|run| - 1];
      AlwaysValid(c, before);
      match run[|run| - 1]
      case Propose(k, x) => RememberOk(After(c, before), k, x);
      case Drop(k) => ForgetOk(After(c, before), k);
    }
  }

  /** The order never repeats a key and holds exactly the map's keys, and there are never more
      than 1024 of them. */
  lemma BoundedAndInOrder(run: seq<Step>)
    ensures Valid(After(EMPTY, run)) && |After(EMPTY, run).context| <= 1024
  {
    AlwaysValid(EMPTY, run);
    SizeIs(After(EMPTY, run));
  }

  /** How many proposals in the run were of changes not tracked at that moment. */
  function NewChanges(c: Cache, run: seq<Step>): nat {
    if run == [] then 0
    else
      var before := run[..|run| - 1];
      var s := run[|run| - 1];
      NewChanges(c, before) + if s.Propose? && s.key !in After(c, before).context then 1 else 0
  }

  predicate Untouched(k: string, run: seq<Step>) {
    forall i :: 0 <= i < |run| ==> run[i].key != k
  }

  /** Position of a tracked key. */
  ghost function Place(c: Cache, k: string): nat
    requires k in c.order
    ensures Place(c, k) < |c.order| && c.order[Place(c, k)] == k
  {
    var i :| 0 <= i < |c.order| && c.order[i] == k; i
  }

  /** `k` is still there with its context, and at most `n` keys were inserted after it. */
  ghost predicate Tracked(c: Cache, k: string, x: Context, n: nat) {
    k in c.context && c.context[k] == x && k in c.order && |c.order| - 1 - Place(c, k) <= n
  }

  lemma {:induction false} WithoutBehind(s: seq<string>, k: string, i: nat)
    requires Distinct(s) && i < |s| && s[i] != k
    ensures exists j :: 0 <= j < |Without(s, k)| && Without(s, k)[j] == s[i] && |Without(s, k)| - j <= |s| - i
    decreases |s|
  {
    assert s == [s[0]] + s[1..];
    if i == 0 {
      WithoutAt(s, k);
      assert Without(s, k)[0] == s[0];
    } else {
      WithoutBehind(s[1..], k, i - 1);
      var t := Without(s[1..], k);
      var j :| 0 <= j < |t| && t[j] == s[1..][i - 1] && |t| - j <= |s[1..]| - (i - 1);
      if s[0] == k {
        assert Without(s, k)[j] == s[i];
      } else {
        assert Without(s, k)[j + 1] == s[i];
      }
    }
  }

  lemma PlaceIs(c: Cache, k: string, i: nat)
    requires Distinct(c.order) && i < |c.order| && c.order[i] == k
    ensures Place(c, k) == i
  {
  }

  lemma TrackedByPropose(c: Cache, k: string, x: Context, n: nat, j: string, y: Context)
    requires Valid(c) && Tracked(c, k, x, n) && j != k
    requires j !in c.context ==> n + 1 < MAX_TRACKED_CHANGES
    ensures Tracked(Remember(c, j, y), k, x, if j in c.context then n else n + 1)
  {
    var r := Remember(c, j, y);
    RememberOk(c, j, y);
    var i := Place(c, k);
    if j in c.context {
      PlaceIs(r, k, i);
    } else if |c.order| >= MAX_TRACKED_CHANGES {
      assert i > 0;
      assert r.order[i - 1] == k;
      PlaceIs(r, k, i - 1);
    } else {
      assert r.order[i] == k;
      PlaceIs(r, k, i);
    }
  }

  lemma TrackedByForget(c: Cache, k: string, x: Context, n: nat, j: string)
    requires Valid(c) && Tracked(c, k, x, n) && j != k
    ensures Tracked(Forget(c, j), k, x, n)
  {
    if j in c.context {
      var f := Forget(c, j);
      ForgetOk(c, j);
      WithoutBehind(c.order, j, Place(c, k));
      var p :| 0 <= p < |f.order| && f.order[p] == k && |f.order| - p <= |c.order| - Place(c, k);
      PlaceIs(f, k, p);
    }
  }

  lemma {:induction false} StaysTracked(c: Cache, k: string, x: Context, n: nat, run: seq<Step>)
    requires Valid(c) && Tracked(c, k, x, n) && Untouched(k, run) && n + NewChanges(c, run) < MAX_TRACKED_CHANGES
    ensures Tracked(After(c, run), k, x, n + NewChanges(c, run))
  {
    if run != [] {
      var before := run[..|run| - 1];
      StaysTracked(c, k, x, n, before);
      AlwaysValid(c, before);
      var now := n + NewChanges(c, before);
      assert run[|run| - 1].key != k;
      match run[|run| - 1]
      case Propose(j, y) => TrackedByPropose(After(c, before), k, x, now, j, y);
      case Drop(j) => TrackedByForget(After(c, before), k, x, now, j);
    }
  }

  /** How many keys were inserted after `k` and are still tracked. */
  ghost function Behind(c: Cache, k: string): nat
    requires k in c.order
  {
    |c.order| - 1 - Place(c, k)
  }

  /** What a proposal said stays available to the change's later records until the change is
      forgotten or proposed again, or too many further new changes are proposed: 1024 after a first
      proposal, fewer by the number of changes already behind it after a repeated one, which does not
      renew its place. */
  lemma ProposalStaysAvailable(c: Cache, k: string, x: Context, run: seq<Step>)
    requires Valid(c) && Untouched(k, run)
    ensures var r := Remember(c, k, x);
            && k in r.order && (k !in c.context ==> Behind(r, k) == 0)
            && (k in c.context ==> k in c.order && Behind(r, k) == Behind(c, k))
            && (Behind(r, k) + NewChanges(r, run) < MAX_TRACKED_CHANGES ==> ContextFor(After(r, run), k) == x)
  {
    var r := Remember(c, k, x);
    RememberOk(c, k, x);
    if k !in c.context {
      PlaceIs(r, k, |r.order| - 1);
    }
    if Behind(r, k) + NewChanges(r, run) < MAX_TRACKED_CHANGES {
      StaysTracked(r, k, x, Behind(r, k), run);
    }
  }

  // ---- exactly when a change is lost ----------------------------------------------------------

  predicate Evicts(c: Cache, s: Step) {
    s.Propose? && s.key !in c.context && |c.order| >= MAX_TRACKED_CHANGES
  }

  /** A step that takes a key from in front of `k`, or evicts. */
  ghost predicate Advances(c: Cache, k: string, s: Step) {
    Evicts(c, s) || (s.Drop? && s.key in c.order && k in c.order && Place(c, s.key) < Place(c, k))
  }

  /** How often the run evicted, or forgot a change that was in front of `k`. */
  ghost function Advanced(c: Cache, k: string, run: seq<Step>): nat {
    if run == [] then 0
    else
      var before := run[..|run| - 1];
      Advanced(c, k, before) + if Advances(After(c, before), k, run[|run| - 1]) then 1 else 0
  }

  lemma {:induction false} WithoutKeeps(s: seq<string>, k: string, i: nat, p: nat)
    requires Distinct(s) && i < |s| && p < |s| && s[p] == k && i != p
    ensures var j := if p < i then i - 1 else i; j < |Without(s, k)| && Without(s, k)[j] == s[i]
    decreases |s|
  {
    assert s == [s[0]] + s[1..];
    if p == 0 {
      WithoutNothing(s[1..], k);
    } else if i > 0 {
      WithoutKeeps(s[1..], k, i - 1, p - 1);
    }
  }

  lemma {:induction false} WithoutNothing(s: seq<string>, k: string)
    requires k !in s
    ensures Without(s, k) == s
  {
    if s != [] {
      WithoutNothing(s[1..], k);
    }
  }

  lemma ProposalMoves(c: Cache, k: string, j: string, y: Context)
    requires Valid(c) && k in c.context && j != k
    ensures var n := Remember(c, j, y);
            if Evicts(c, Propose(j, y)) && Place(c, k) == 0 then k !in n.context
            else && k in n.context && n.context[k] == c.context[k] && k in n.order
                 && Place(n, k) == if Evicts(c, Propose(j, y)) then Place(c, k) - 1 else Place(c, k)
  {
    var n := Remember(c, j, y);
    var i := Place(c, k);
    RememberOk(c, j, y);
    if Evicts(c, Propose(j, y)) {
      assert c.order == [c.order[0]] + c.order[1..];
      if i > 0 {
        assert n.order[i - 1] == k;
        PlaceIs(n, k, i - 1);
      }
    } else {
      assert n.order[i] == k;
      PlaceIs(n, k, i);
    }
  }

  lemma RemovalMoves(c: Cache, k: string, j: string)
    requires Valid(c) && k in c.context && j != k
    ensures var n := Forget(c, j);
            && k in n.context && n.context[k] == c.context[k] && k in n.order
            && Place(n, k) == if Advances(c, k, Drop(j)) then Place(c, k) - 1 else Place(c, k)
  {
    var i := Place(c, k);
    ForgetOk(c, j);
    if j in c.context {
      var p := Place(c, j);
      WithoutKeeps(c.order, j, i, p);
      PlaceIs(Forget(c, j), k, if p < i then i - 1 else i);
    }
  }

  /** One step of others: `k` moves up if something left in front of it, and is gone if it was first
      and something was evicted. */
  lemma StepMoves(c: Cache, k: string, s: Step)
    requires Valid(c) && k in c.context && s.key != k
    ensures var n := Next(c, s);
            if Evicts(c, s) && Place(c, k) == 0 then k !in n.context
            else && k in n.context && n.context[k] == c.context[k] && k in n.order
                 && Place(n, k) == if Advances(c, k, s) then Place(c, k) - 1 else Place(c, k)
  {
    hide Remember, Forget, Place, Valid;
    match s
    case Propose(j, y) => ProposalMoves(c, k, j, y);
    case Drop(j) => RemovalMoves(c, k, j);
  }

  lemma AbsentStays(c: Cache, k: string, s: Step)
    requires Valid(c) && k !in c.context && s.key != k
    ensures k !in Next(c, s).context
  {
  }

  /** A tracked change, new or proposed before, survives a run that does not touch it exactly when the
      evictions, and the removals in front of it, do not outnumber the changes that were in front of it;
      and then it has kept its context. */
  lemma {:induction false} SurvivesIff(c: Cache, k: string, run: seq<Step>)
    requires Valid(c) && k in c.context && Untouched(k, run)
    ensures k in After(c, run).context <==> Advanced(c, k, run) <= Place(c, k)
    ensures k in After(c, run).context ==>
              && After(c, run).context[k] == c.context[k] && k in After(c, run).order
              && Place(After(c, run), k) == Place(c, k) - Advanced(c, k, run)
  {
    if run != [] {
      var before := run[..|run| - 1];
      var s := run[|run| - 1];
      SurvivesIff(c, k, before);
      AlwaysValid(c, before);
      assert s.key != k;
      hide Next;
      var d := After(c, before);
      assert After(c, run) == Next(d, s);
      if k in d.context {
        StepMoves(d, k, s);
      } else {
        AbsentStays(d, k, s);
      }
    }
  }
}
