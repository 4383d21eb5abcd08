/** The evidence recorder as an object: an open segment, closed ones waiting, and the contexts of
    proposed changes. Each method is proved to compute the corresponding step of the protocol. */
module RecorderClass {
  import opened Text
  import opened Evidence
  import opened EvidenceChain
  import P = EvidenceProtocol
  import Cache = ContextCache

  /** What the spool answers to its i-th call in one flush. */
  type Spool = nat -> P.Verdict

  /** The first call among `n` that the spool refuses, or `n`. */
  function FirstRefused(spool: Spool, n: nat): (i: nat)
    ensures i <= n && (i < n ==> !spool(i).Accepted?)
    ensures forall j :: 0 <= j < i ==> spool(j).Accepted?
  {
    if n == 0 then 0
    else
      var i := FirstRefused(spool, n - 1);
      if i < n - 1 || !spool(n - 1).Accepted? then i else n
  }

  class EvidenceRecorder {
    const hash: Hash
    const cfg: P.Config
    var current: Segment
    var nextSeq: nat
    /** Head of the last closed segment. */
    var prevHead: string
    var closed: seq<Closed>
    var context: map<string, Cache.Context>
    var order: seq<string>

    constructor (hash: Hash, cfg: P.Config, runId: string, resumeFrom: Option<string>)
      ensures this.hash == hash && this.cfg == cfg
      ensures State() == P.Run([], [], [], [],
                NewSegment(runId, cfg.serverId, 0, if resumeFrom.Some? then resumeFrom.value else ""),
                1, map[], None, false)
      ensures Tracked() == Cache.EMPTY
    {
      this.hash, this.cfg := hash, cfg;
      var start := if resumeFrom.Some? then resumeFrom.value else "";
      current := NewSegment(runId, cfg.serverId, 0, start);
      nextSeq, prevHead, closed := 1, start, [];
      context, order := map[], [];
    }

    /** The recorder's chain state, as the protocol sees it between flushes. */
    ghost function State(): P.Run
      reads this
    {
      P.Run([], [], [], closed, current, nextSeq, map[], None, false)
    }

    ghost function Tracked(): Cache.Cache
      reads this
    {
      Cache.Cache(context, order)
    }

    // ---- segments -----------------------------------------------------------------------

    /** Closes the open segment and starts the next; an empty segment stays open. */
    method Roll() returns (c: Option<Closed>)
      modifies this`current, this`nextSeq, this`prevHead
      ensures c.None? <==> old(current.records) == []
      ensures P.Roll(old(State())) == if c.Some? then State().(closed := closed + [c.value]) else State()
      ensures c.Some? ==> prevHead == c.value.headHash == current.prevHash
    {
      if current.records == [] {
        return None;
      }
      var finished := current;
      current := NewSegment(finished.runId, finished.serverId, nextSeq, "");
      var done := Close(finished);
      prevHead := done.headHash;
      current := current.(prevHash := prevHead);
      nextSeq := nextSeq + 1;
      c := Some(done);
    }

    /** Appends a record, rolling the segment when it is full. A record the segment rejects is
        dropped. */
    method AppendRecord(record: Record)
      modifies this`current, this`nextSeq, this`prevHead, this`closed
      ensures State() == P.AppendRecord(hash, cfg, old(State()), record)
    {
      hide EvidenceChain.Append;
      var appended := EvidenceChain.Append(hash, current, record);
      if appended.Err? {
        return;
      }
      current := appended.segment;
      if |current.records| >= cfg.perSegment {
        var full := Roll();
        if full.Some? {
          closed := closed + [full.value];
        }
      }
    }

    /** Takes everything held out of the recorder, closing the open segment. */
    method ClaimHeld() returns (pending: seq<Closed>)
      modifies this`current, this`nextSeq, this`prevHead, this`closed
      ensures closed == [] && State().(inflight := pending) == P.ClaimAll(old(State()))
    {
      QueueAside(State());
      pending := closed;
      closed := [];
      var last := Roll();
      if last.Some? {
        pending := pending + [last.value];
      }
    }

    /** Hands every held segment to the spool, oldest first, until one is refused; that one and all
        after it go back to the front of the queue. */
    method FlushAfterAppend(spool: Spool) returns (ok: bool, offered: seq<Closed>)
      modifies this`current, this`nextSeq, this`prevHead, this`closed
      ensures var claim := P.ClaimAll(old(State()));
              var n := FirstRefused(spool, |claim.inflight|);
              && (ok <==> n == |claim.inflight|)
              && offered == claim.inflight[..if ok then n else n + 1]
              && State() == claim.(inflight := [], closed := claim.inflight[n..])
    {
      hide P.ClaimAll;
      var pending := ClaimHeld();
      ghost var claim := State();
      offered := [];
      for i := 0 to |pending|
        invariant offered == pending[..i] && State() == claim
        invariant forall j :: 0 <= j < i ==> spool(j).Accepted?
      {
        offered := offered + [pending[i]];
        if !spool(i).Accepted? {
          closed := pending[i..] + closed;
          return false, offered;
        }
      }
      ok := true;
    }

    /** Shutdown: offers every held segment once and in order, going on past errors, and reports the
        first of them. */
    method SpoolEverything(spool: Spool) returns (firstError: Option<nat>, offered: seq<Closed>)
      modifies this`current, this`nextSeq, this`prevHead, this`closed
      ensures offered == P.ClaimAll(old(State())).inflight
      ensures State() == P.ClaimAll(old(State())).(inflight := [])
      ensures firstError == FirstError(spool, |offered|)
    {
      QueueAside(State());
      firstError, offered := None, [];
      var taken := closed;
      closed := [];
      ghost var rest := State();
      for i := 0 to |taken|
        invariant offered == taken[..i] && State() == rest
        invariant firstError == FirstError(spool, i)
      {
        if !spool(i).Accepted? && firstError.None? {
          firstError := Some(i);
        }
        offered := offered + [taken[i]];
      }
      var last := Roll();
      if last.Some? {
        if !spool(|taken|).Accepted? && firstError.None? {
          firstError := Some(|taken|);
        }
        offered := offered + [last.value];
      }
    }

    // ---- what is recorded ----------------------------------------------------------------

    /** Everything the recorder holds, in order, as far as it is about the change. */
    ghost function Facts(): seq<Fact>
      reads this
    {
      HeldFacts(State())
    }

    /** Somebody asks for a change: what they said is kept for the records that follow. */
    method Proposed(requestId: string, changesetId: string, deviceId: string, principal: string, diffHash: string,
                    now: string)
      requires Cache.Valid(Tracked())
      modifies this`current, this`nextSeq, this`prevHead, this`closed, this`context, this`order
      ensures Cache.Valid(Tracked())
      ensures Tracked() == Cache.Remember(old(Tracked()), changesetId, Cache.Context(deviceId, principal, diffHash))
      ensures Facts() == old(Facts()) + [Fact(ByProposal, requestId, changesetId, deviceId, principal, diffHash, now)]
    {
      Remember(changesetId, Cache.Context(deviceId, principal, diffHash));
      Append(Record(requestId, changesetId, deviceId, principal, diffHash, now, None, Proposal, "", "", 0, ""));
    }

    /** Somebody decided. The device and the diff are the proposal's; a change that was turned down is
        over. */
    method Decided(requestId: string, changesetId: string, approver: string, decision: string, now: string)
      requires Cache.Valid(Tracked())
      modifies this`current, this`nextSeq, this`prevHead, this`closed, this`context, this`order
      ensures Cache.Valid(Tracked())
      ensures Tracked() == if decision == "approved" then old(Tracked()) else Cache.Forget(old(Tracked()), changesetId)
      ensures var proposed := Cache.ContextFor(old(Tracked()), changesetId);
              Facts() == old(Facts()) + [Fact(ByApproval(approver, decision), requestId, changesetId,
                                              proposed.deviceId, approver, proposed.diffHash, now)]
    {
      var proposed := ContextFor(changesetId);
      Append(Record(requestId, changesetId, proposed.deviceId, approver, proposed.diffHash, now, None,
                    Approval(approver, decision), "", "", 0, ""));
      if decision != "approved" {
        Forget(changesetId);
      }
    }

    /** Execution is about to start: persisted before this returns. The diff is the proposal's, the
        device and the principal are those of the execution. */
    method ApplyIntent(requestId: string, changesetId: string, deviceId: string, principal: string, now: string,
                       spool: Spool)
      returns (ok: bool, offered: seq<Closed>)
      modifies this`current, this`nextSeq, this`prevHead, this`closed
      ensures var diffHash := Cache.ContextFor(old(Tracked()), changesetId).diffHash;
              Flushed(spool, offered, ok, Facts(),
                      old(Facts()) + [Fact(ByIntent, requestId, changesetId, deviceId, principal, diffHash, now)])
    {
      var proposed := ContextFor(changesetId);
      Append(Record(requestId, changesetId, deviceId, principal, proposed.diffHash, now, None,
                    Detail.ApplyIntent, "", "", 0, ""));
      ok, offered := Flush(spool);
    }

    /** The device answered: persisted before this returns, and the change is over. */
    method ResultReceipt(requestId: string, changesetId: string, deviceId: string, principal: string,
                         succeeded: bool, error: string, now: string, spool: Spool)
      returns (ok: bool, offered: seq<Closed>)
      requires Cache.Valid(Tracked())
      modifies this`current, this`nextSeq, this`prevHead, this`closed, this`context, this`order
      ensures Cache.Valid(Tracked()) && Tracked() == Cache.Forget(old(Tracked()), changesetId)
      ensures var diffHash := Cache.ContextFor(old(Tracked()), changesetId).diffHash;
              var result := if succeeded then "success" else "failure";
              var reported := if error == "" then None else Some(error);
              Flushed(spool, offered, ok, Facts(),
                      old(Facts()) + [Fact(ByReceipt(result, reported), requestId, changesetId, deviceId, principal,
                                           diffHash, now)])
    {
      hide Flushed, HeldFacts, Cache.Forget, Cache.ContextFor;
      var proposed := ContextFor(changesetId);
      var outcome := if succeeded then "success" else "failure";
      Append(Record(requestId, changesetId, deviceId, principal, proposed.diffHash, now, None,
                    Receipt(outcome, if error != "" then Some(error) else None), "", "", 0, ""));
      Forget(changesetId);
      ok, offered := Flush(spool);
    }

    /** Appends a record without metadata, which no segment rejects. */
    method Append(record: Record)
      requires record.metadata.None? && Blank(record)
      modifies this`current, this`nextSeq, this`prevHead, this`closed
      ensures Facts() == old(Facts()) + [FactOf(record)]
    {
      AppendAdds(hash, cfg, State(), record);
      hide P.AppendRecord, HeldFacts;
      AppendRecord(record);
    }

    /** Hands everything held to the spool. */
    method Flush(spool: Spool) returns (ok: bool, offered: seq<Closed>)
      modifies this`current, this`nextSeq, this`prevHead, this`closed
      ensures Flushed(spool, offered, ok, Facts(), old(Facts()))
    {
      ClaimHolds(State());
      ghost var claim := P.ClaimAll(State());
      hide P.ClaimAll;
      ok, offered := FlushAfterAppend(spool);
      ghost var n := FirstRefused(spool, |claim.inflight|);
      FactsSplit(claim.inflight, n);
      assert claim.inflight[..|claim.inflight|] == claim.inflight;
    }

    method ContextFor(changesetId: string) returns (c: Cache.Context)
      ensures c == Cache.ContextFor(Tracked(), changesetId)
    {
      c := if changesetId in context then context[changesetId] else Cache.Context("", "", "");
    }

    // ---- contexts -------------------------------------------------------------------------

    /** Evicts the oldest entries until there is room. */
    method MakeRoom()
      requires Cache.Valid(Tracked()) && |order| == Cache.MAX_TRACKED_CHANGES
      modifies this`context, this`order
      ensures Tracked() == Cache.Cache(old(context) - {old(order)[0]}, old(order)[1..])
    {
      Cache.SizeIs(Tracked());
      ghost var before := Tracked();
      while |context| >= Cache.MAX_TRACKED_CHANGES
        invariant |context| == |order|
        invariant Tracked() == before
                  || Tracked() == Cache.Cache(before.context - {before.order[0]}, before.order[1..])
        decreases |order|
      {
        if order == [] {
          break;
        }
        var oldest := order[0];
        order := order[1..];
        context := context - {oldest};
        assert |context| == |order| by { Cache.OldestOut(before); }
      }
    }

    method Remember(changesetId: string, c: Cache.Context)
      requires Cache.Valid(Tracked())
      modifies this`context, this`order
      ensures Tracked() == Cache.Remember(old(Tracked()), changesetId, c)
      ensures Cache.Valid(Tracked())
    {
      Cache.RememberOk(Tracked(), changesetId, c);
      Cache.SizeIs(Tracked());
      var replacing := changesetId in context;
      if !replacing && |context| >= Cache.MAX_TRACKED_CHANGES {
        MakeRoom();
      }
      if !replacing {
        order := order + [changesetId];
      }
      context := context[changesetId := c];
    }

    method Forget(changesetId: string)
      requires Cache.Valid(Tracked())
      modifies this`context, this`order
      ensures Tracked() == Cache.Forget(old(Tracked()), changesetId)
      ensures Cache.Valid(Tracked())
    {
      Cache.ForgetOk(Tracked(), changesetId);
      if changesetId in context {
        context := context - {changesetId};
        order := Retain(order, changesetId);
      }
    }

    static method Retain(tracked: seq<string>, changesetId: string) returns (kept: seq<string>)
      ensures kept == Cache.Without(tracked, changesetId)
    {
      kept := [];
      for i := 0 to |tracked|
        invariant kept == Cache.Without(tracked[..i], changesetId)
      {
        WithoutPush(tracked[..i], tracked[i], changesetId);
        assert tracked[..i + 1] == tracked[..i] + [tracked[i]];
        if tracked[i] != changesetId {
          kept := kept + [tracked[i]];
        }
      }
      assert tracked[..|tracked|] == tracked;
    }
  }

  /** The index of the first refusal among `n` calls, if any. */
  function FirstError(spool: Spool, n: nat): Option<nat> {
    var i := FirstRefused(spool, n);
    if i < n then Some(i) else None
  }

  // ---- what a record says about a change ----------------------------------------------

  datatype Kind =
    | ByProposal | ByApproval(approver: string, decision: string) | ByIntent
    | ByReceipt(outcome: string, error: Option<string>)

  /** A record without its place in the chain. */
  datatype Fact = Fact(kind: Kind, requestId: string, changesetId: string, deviceId: string, principal: string,
                       diffHash: string, time: string)

  function KindOf(d: Detail): Kind {
    match d
    case Proposal => ByProposal
    case Approval(approver, decision) => ByApproval(approver, decision)
    case ApplyIntent => ByIntent
    case Receipt(outcome, error) => ByReceipt(outcome, error)
  }

  function FactOf(r: Record): Fact {
    Fact(KindOf(r.detail), r.requestId, r.changesetId, r.deviceId, r.principal, r.diffHash, r.timestamp)
  }

  function FactsOf(rs: seq<Record>): seq<Fact> {
    seq(|rs|, i requires 0 <= i < |rs| => FactOf(rs[i]))
  }

  function FactsIn(cs: seq<Closed>): seq<Fact> {
    if cs == [] then [] else FactsIn(cs[..|cs| - 1]) + FactsOf(cs[|cs| - 1].records)
  }

  function HeldFacts(r: P.Run): seq<Fact> {
    FactsIn(r.closed) + FactsOf(r.current.records)
  }

  /** A flush of `all` that was offered these segments and leaves `held`: either every segment was
      accepted and nothing is left, or all but the last were, and the last and the rest are still held,
      in order. */
  ghost predicate Flushed(spool: Spool, offered: seq<Closed>, ok: bool, held: seq<Fact>, all: seq<Fact>) {
    if ok then
      held == [] && FactsIn(offered) == all && forall i :: 0 <= i < |offered| ==> spool(i).Accepted?
    else
      && offered != [] && !spool(|offered| - 1).Accepted?
      && (forall i :: 0 <= i < |offered| - 1 ==> spool(i).Accepted?)
      && FactsIn(offered[..|offered| - 1]) + held == all
  }

  /** So after a flush of something, what was last recorded is in an accepted segment, or still held. */
  lemma LastIsAcceptedOrHeld(spool: Spool, offered: seq<Closed>, ok: bool, held: seq<Fact>, all: seq<Fact>, f: Fact)
    requires Flushed(spool, offered, ok, held, all + [f])
    ensures ok ==> f in FactsIn(offered)
    ensures !ok ==> f in FactsIn(offered[..|offered| - 1]) || f in held
  {
    assert f in all + [f];
  }

  /** The intent names the diff that was proposed, if the change was not proposed again, decided against
      or finished meanwhile, and not pushed out by a thousand others. */
  lemma IntentNamesTheProposedDiff(c: Cache.Cache, changesetId: string, x: Cache.Context, run: seq<Cache.Step>)
    requires Cache.Valid(c) && Cache.Untouched(changesetId, run)
    requires var r := Cache.Remember(c, changesetId, x);
             changesetId in r.order ==>
               Cache.Behind(r, changesetId) + Cache.NewChanges(r, run) < Cache.MAX_TRACKED_CHANGES
    ensures Cache.ContextFor(Cache.After(Cache.Remember(c, changesetId, x), run), changesetId).diffHash == x.diffHash
  {
    Cache.ProposalStaysAvailable(c, changesetId, x, run);
  }

  lemma FactsGrow(rs: seq<Record>, r: Record)
    ensures FactsOf(rs + [r]) == FactsOf(rs) + [FactOf(r)]
  {
  }

  lemma FactsPush(cs: seq<Closed>, c: Closed)
    ensures FactsIn(cs + [c]) == FactsIn(cs) + FactsOf(c.records)
  {
    assert (cs + [c])[..|cs|] == cs;
  }

  lemma {:induction false} FactsConcat(cs: seq<Closed>, ds: seq<Closed>)
    ensures FactsIn(cs + ds) == FactsIn(cs) + FactsIn(ds)
    decreases |ds|
  {
    if ds == [] {
      assert cs + ds == cs;
    } else {
      var n := |ds| - 1;
      FactsConcat(cs, ds[..n]);
      assert cs + ds == cs + ds[..n] + [ds[n]];
      FactsPush(cs + ds[..n], ds[n]);
      hide FactsOf;
    }
  }

  lemma FactsSplit(cs: seq<Closed>, n: nat)
    requires n <= |cs|
    ensures FactsIn(cs) == FactsIn(cs[..n]) + FactsIn(cs[n..])
    ensures n < |cs| ==> cs[..n + 1][..n] == cs[..n]
  {
    assert cs == cs[..n] + cs[n..];
    FactsConcat(cs[..n], cs[n..]);
  }

  lemma RollHolds(r: P.Run)
    ensures HeldFacts(P.Roll(r)) == HeldFacts(r)
  {
    if r.current.records != [] {
      FactsPush(r.closed, Close(r.current));
      hide FactsOf;
      assert P.Roll(r).current.records == [];
      assert FactsOf([]) == [];
    }
  }

  lemma ClaimHolds(r: P.Run)
    ensures var n := P.ClaimAll(r); FactsIn(n.inflight) == HeldFacts(r) && HeldFacts(n) == [] && n.current.records == []
  {
    RollHolds(r);
    assert P.Roll(r).current.records == [];
    assert FactsOf([]) == [];
  }

  lemma AppendAdds(h: Hash, cfg: P.Config, r: P.Run, record: Record)
    requires record.metadata.None? && Blank(record)
    ensures HeldFacts(P.AppendRecord(h, cfg, r, record)) == HeldFacts(r) + [FactOf(record)]
  {
    var e := Enveloped(r.current, record);
    HashableIff(e);
    var a := EvidenceChain.Append(h, r.current, record);
    assert a.Ok? && a.segment.records == r.current.records + [e] by { hide ToJson, RecordHash; }
    assert FactOf(e) == FactOf(record);
    FactsGrow(r.current.records, e);
    hide EvidenceChain.Append, FactOf, FactsOf, P.Roll;
    RollHolds(r.(current := a.segment));
  }

  /** Rolling does not look at the queue. */
  lemma QueueAside(r: P.Run)
    ensures P.Roll(r) == var n := P.Roll(r.(closed := [])); n.(closed := r.closed + n.closed)
  {
    if r.current.records == [] {
      assert r.closed + [] == r.closed;
    } else {
      var c := Close(r.current);
      assert P.Roll(r.(closed := [])).closed == [c];
    }
  }

  lemma {:induction false} WithoutPush(s: seq<string>, x: string, k: string)
    ensures Cache.Without(s + [x], k) == Cache.Without(s, k) + if x == k then [] else [x]
  {
    if s == [] {
      assert s + [x] == [x];
    } else {
      assert (s + [x])[1..] == s[1..] + [x];
      WithoutPush(s[1..], x, k);
    }
  }
}
