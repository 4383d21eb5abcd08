/** Evidence records and the hash chain through them. */
module Evidence {
  import opened Text
  import opened Json
  import opened Canonical

  /** What each of the four record kinds adds. */
  datatype Detail =
    | Proposal | Approval(approver: string, decision: string) | ApplyIntent
    | Receipt(outcome: string, error: Option<string>)

  datatype Record = Record(
    requestId: string, changesetId: string, deviceId: string, principal: string, diffHash: string, timestamp: string,
    metadata: Option<Json>, detail: Detail,
    runId: string, serverId: string, segmentSeq: nat, prevHash: string)

  // ---- what is hashed ------------------------------------------------------------

  function Optional(k: string, v: Option<Json>, rest: Members): Members {
    if v.Some? then Member(k, v.value, rest) else rest
  }

  function KindName(d: Detail): string {
    match d
    case Proposal => "evidence:proposal"
    case Approval(_, _) => "evidence:approval"
    case ApplyIntent => "evidence:apply_intent"
    case Receipt(_, _) => "evidence:result_receipt"
  }

  function ErrorOf(d: Detail): Option<Json> {
    if d.Receipt? && d.error.Some? then Some(Str(d.error.value)) else None
  }

  /** The second half of a record's members, from `kind` on. */
  function Tail(r: Record): Members {
    Member("kind", Str(KindName(r.detail)),
    Optional("metadata", r.metadata,
    Optional("outcome", if r.detail.Receipt? then Some(Str(r.detail.outcome)) else None,
    Envelope(r))))
  }

  function Envelope(r: Record): Members {
    Member("prev_hash", Str(r.prevHash),
    Member("principal", Str(r.principal),
    Member("request_id", Str(r.requestId),
    Member("run_id", Str(r.runId),
    Member("segment_seq", Number(r.segmentSeq),
    Member("server_id", Str(r.serverId),
    Member("timestamp", Str(r.timestamp), NoMembers)))))))
  }

  /** From `device_id` on. */
  function Middle(r: Record): Members {
    Member("device_id", Str(r.deviceId),
    Member("diff_hash", Str(r.diffHash),
    Optional("error", ErrorOf(r.detail),
    Tail(r))))
  }

  /** A record as JSON, its members in key order as the in-memory map holds them. */
  function ToJson(r: Record): Json {
    Obj(
      Optional("approver", if r.detail.Approval? then Some(Str(r.detail.approver)) else None,
      Member("changeset_id", Str(r.changesetId),
      Optional("decision", if r.detail.Approval? then Some(Str(r.detail.decision)) else None,
      Middle(r)))))
  }

  function Pairs(m: Members): seq<(string, Json)> {
    match m case NoMembers => [] case Member(k, v, rest) => [(k, v)] + Pairs(rest)
  }

  function OptionalPair(k: string, v: Option<string>): seq<(string, Json)> {
    if v.Some? then [(k, Str(v.value))] else []
  }

  /** The place in the chain, who did it under which request, and when. */
  function ClosingPairs(r: Record): seq<(string, Json)> {
    [("prev_hash", Str(r.prevHash)), ("principal", Str(r.principal)), ("request_id", Str(r.requestId)),
     ("run_id", Str(r.runId)), ("segment_seq", Number(r.segmentSeq)), ("server_id", Str(r.serverId)),
     ("timestamp", Str(r.timestamp))]
  }

  lemma PairsPush(k: string, v: Json, rest: Members, ps: seq<(string, Json)>)
    requires Pairs(rest) == ps
    ensures Pairs(Member(k, v, rest)) == [(k, v)] + ps
  {
  }

  lemma EnvelopePairs(r: Record)
    ensures Pairs(Envelope(r)) == ClosingPairs(r)
  {
    var m6 := Member("timestamp", Str(r.timestamp), NoMembers);
    assert Pairs(m6) == [("timestamp", Str(r.timestamp))] by { assert Pairs(NoMembers) == []; }
    hide Pairs;
    var m5 := Member("server_id", Str(r.serverId), m6);
    PairsPush("server_id", Str(r.serverId), m6, Pairs(m6));
    var m4 := Member("segment_seq", Number(r.segmentSeq), m5);
    PairsPush("segment_seq", Number(r.segmentSeq), m5, Pairs(m5));
    var m3 := Member("run_id", Str(r.runId), m4);
    PairsPush("run_id", Str(r.runId), m4, Pairs(m4));
    var m2 := Member("request_id", Str(r.requestId), m3);
    PairsPush("request_id", Str(r.requestId), m3, Pairs(m3));
    var m1 := Member("principal", Str(r.principal), m2);
    PairsPush("principal", Str(r.principal), m2, Pairs(m2));
    PairsPush("prev_hash", Str(r.prevHash), m1, Pairs(m1));
  }

  lemma OptionalPairs(k: string, v: Option<Json>, rest: Members)
    ensures Pairs(Optional(k, v, rest)) == (if v.Some? then [(k, v.value)] else []) + Pairs(rest)
  {
  }

  /** Up to the kind: who decided what, which change, which device and which diff, and what went wrong. */
  function OpeningPairs(r: Record): seq<(string, Json)> {
    OptionalPair("approver", if r.detail.Approval? then Some(r.detail.approver) else None)
    + ([("changeset_id", Str(r.changesetId))]
       + (OptionalPair("decision", if r.detail.Approval? then Some(r.detail.decision) else None)
          + ([("device_id", Str(r.deviceId)), ("diff_hash", Str(r.diffHash))]
             + OptionalPair("error", if r.detail.Receipt? then r.detail.error else None))))
  }

  /** The kind, and what comes with it. */
  function KindPairs(r: Record): seq<(string, Json)> {
    [("kind", Str(if r.detail.Proposal? then "evidence:proposal"
                  else if r.detail.Approval? then "evidence:approval"
                  else if r.detail.ApplyIntent? then "evidence:apply_intent" else "evidence:result_receipt"))]
    + ((if r.metadata.Some? then [("metadata", r.metadata.value)] else [])
       + OptionalPair("outcome", if r.detail.Receipt? then Some(r.detail.outcome) else None))
  }

  /** What is hashed of a record, name by name and in this order. */
  lemma RecordPairs(r: Record)
    ensures ToJson(r).Obj? && Pairs(ToJson(r).members) == OpeningPairs(r) + (KindPairs(r) + ClosingPairs(r))
  {
    hide Middle, Tail, Envelope, Pairs, KindPairs, ClosingPairs;
    TailPairs(r);
    MiddlePairs(r);
    var decision := if r.detail.Approval? then Some(Str(r.detail.decision)) else None;
    OptionalPairs("decision", decision, Middle(r));
    var c := Optional("decision", decision, Middle(r));
    PairsPush("changeset_id", Str(r.changesetId), c, Pairs(c));
    OptionalPairs("approver", if r.detail.Approval? then Some(Str(r.detail.approver)) else None,
                  Member("changeset_id", Str(r.changesetId), c));
  }

  lemma TailPairs(r: Record)
    ensures Pairs(Tail(r)) == KindPairs(r) + ClosingPairs(r)
  {
    hide Envelope, Pairs, ClosingPairs;
    EnvelopePairs(r);
    var outcome := if r.detail.Receipt? then Some(Str(r.detail.outcome)) else None;
    OptionalPairs("outcome", outcome, Envelope(r));
    var o := Optional("outcome", outcome, Envelope(r));
    OptionalPairs("metadata", r.metadata, o);
    var m := Optional("metadata", r.metadata, o);
    PairsPush("kind", Str(KindName(r.detail)), m, Pairs(m));
  }

  lemma MiddlePairs(r: Record)
    ensures Pairs(Middle(r))
         == [("device_id", Str(r.deviceId)), ("diff_hash", Str(r.diffHash))]
            + OptionalPair("error", if r.detail.Receipt? then r.detail.error else None)
            + Pairs(Tail(r))
  {
    hide Tail, Pairs;
    OptionalPairs("error", ErrorOf(r.detail), Tail(r));
    var e := Optional("error", ErrorOf(r.detail), Tail(r));
    PairsPush("diff_hash", Str(r.diffHash), e, Pairs(e));
    var d := Member("diff_hash", Str(r.diffHash), e);
    PairsPush("device_id", Str(r.deviceId), d, Pairs(d));
  }

  /** Metadata as a JSON value in memory is: well formed and in key order. */
  predicate Storable(r: Record) {
    r.metadata.Some? ==> Valid(r.metadata.value) && Normal(r.metadata.value)
  }

  /** Nested deeper than canonicalisation accepts. */
  predicate Shallow(r: Record) {
    r.metadata.Some? ==> Height(r.metadata.value) < MAX_CANONICAL_DEPTH
  }

  /** Well formed, in key order, and no deeper than `depth`. */
  predicate Formed(m: Members, depth: nat) {
    ValidMembers(m) && NormalMembers(m) && HeightMembers(m) <= depth
  }

  predicate Above(k: string, m: Members) { m.Member? ==> Less(k, m.key) }

  lemma Prepend(k: string, v: Json, m: Members, depth: nat)
    requires Formed(m, depth) && Above(k, m) && Valid(v) && Normal(v) && 1 + Height(v) <= depth
    ensures Formed(Member(k, v, m), depth)
  {
  }

  lemma MaybePrepend(j: string, k: string, v: Option<Json>, m: Members, depth: nat)
    requires Formed(m, depth) && Above(k, m) && Less(j, k)
    requires v.Some? ==> Valid(v.value) && Normal(v.value) && 1 + Height(v.value) <= depth
    ensures Formed(Optional(k, v, m), depth) && Above(j, Optional(k, v, m))
  {
    if v.Some? {
      Prepend(k, v.value, m, depth);
    } else if m.Member? {
      LessTransitive(j, k, m.key);
    }
  }

  lemma EnvelopeFormed(r: Record, depth: nat)
    requires depth >= 1
    ensures Formed(Envelope(r), depth) && Envelope(r).key == "prev_hash"
  {
    NumberValid(r.segmentSeq);
    LessAt("prev_hash", "principal", 2);
    LessAt("principal", "request_id", 0);
    LessAt("request_id", "run_id", 1);
    LessAt("run_id", "segment_seq", 0);
    LessAt("segment_seq", "server_id", 2);
    LessAt("server_id", "timestamp", 0);
    hide Less;
    var m6 := Member("timestamp", Str(r.timestamp), NoMembers);
    Prepend("timestamp", Str(r.timestamp), NoMembers, depth);
    var m5 := Member("server_id", Str(r.serverId), m6);
    Prepend("server_id", Str(r.serverId), m6, depth);
    var m4 := Member("segment_seq", Number(r.segmentSeq), m5);
    Prepend("segment_seq", Number(r.segmentSeq), m5, depth);
    var m3 := Member("run_id", Str(r.runId), m4);
    Prepend("run_id", Str(r.runId), m4, depth);
    var m2 := Member("request_id", Str(r.requestId), m3);
    Prepend("request_id", Str(r.requestId), m3, depth);
    Prepend("principal", Str(r.principal), m2, depth);
    Prepend("prev_hash", Str(r.prevHash), Member("principal", Str(r.principal), m2), depth);
  }

  /** The metadata sits one level down, so a record is as deep as one more than that. */
  function DepthOf(r: Record): nat {
    if r.metadata.Some? then 1 + Height(r.metadata.value) else 1
  }

  lemma TailFormed(r: Record)
    requires Storable(r)
    ensures Formed(Tail(r), DepthOf(r)) && Tail(r).key == "kind"
  {
    var depth := DepthOf(r);
    EnvelopeFormed(r, depth);
    LessAt("kind", "metadata", 0);
    LessAt("metadata", "outcome", 0);
    LessAt("outcome", "prev_hash", 0);
    hide Less, Envelope;
    var o := if r.detail.Receipt? then Some(Str(r.detail.outcome)) else None;
    MaybePrepend("metadata", "outcome", o, Envelope(r), depth);
    var m := Optional("outcome", o, Envelope(r));
    MaybePrepend("kind", "metadata", r.metadata, m, depth);
    Prepend("kind", Str(KindName(r.detail)), Optional("metadata", r.metadata, m), depth);
  }

  lemma MiddleFormed(r: Record)
    requires Storable(r)
    ensures Formed(Middle(r), DepthOf(r)) && Middle(r).key == "device_id"
  {
    var depth := DepthOf(r);
    TailFormed(r);
    LessAt("error", "kind", 0);
    LessAt("diff_hash", "error", 0);
    LessAt("device_id", "diff_hash", 1);
    hide Less, Tail;
    MaybePrepend("diff_hash", "error", ErrorOf(r.detail), Tail(r), depth);
    var m := Optional("error", ErrorOf(r.detail), Tail(r));
    Prepend("diff_hash", Str(r.diffHash), m, depth);
    Prepend("device_id", Str(r.deviceId), Member("diff_hash", Str(r.diffHash), m), depth);
  }

  lemma RecordFormed(r: Record)
    requires Storable(r)
    ensures Valid(ToJson(r)) && Normal(ToJson(r)) && Height(ToJson(r)) <= DepthOf(r)
  {
    var depth := DepthOf(r);
    MiddleFormed(r);
    LessAt("changeset_id", "decision", 0);
    LessAt("decision", "device_id", 2);
    LessAt("approver", "changeset_id", 0);
    hide Less, Middle;
    var d := Middle(r);
    var decision := if r.detail.Approval? then Some(Str(r.detail.decision)) else None;
    MaybePrepend("changeset_id", "decision", decision, d, depth);
    var c := Member("changeset_id", Str(r.changesetId), Optional("decision", decision, d));
    Prepend("changeset_id", Str(r.changesetId), Optional("decision", decision, d), depth);
    if r.detail.Approval? {
      Prepend("approver", Str(r.detail.approver), c, depth);
    }
  }

  lemma MetadataDepth(r: Record)
    requires r.metadata.Some?
    ensures Height(ToJson(r)) >= 1 + Height(r.metadata.value)
  {
    assert HeightMembers(Tail(r)) >= 1 + Height(r.metadata.value);
    assert HeightMembers(Middle(r)) >= HeightMembers(Tail(r)) by {
      hide Tail;
      var m := Optional("error", ErrorOf(r.detail), Tail(r));
      assert HeightMembers(m) >= HeightMembers(Tail(r));
      assert HeightMembers(Member("diff_hash", Str(r.diffHash), m)) >= HeightMembers(m);
    }
    hide Tail, Middle;
    var decision := if r.detail.Approval? then Some(Str(r.detail.decision)) else None;
    var m := Optional("decision", decision, Middle(r));
    assert HeightMembers(m) >= HeightMembers(Middle(r));
    assert HeightMembers(Member("changeset_id", Str(r.changesetId), m)) >= HeightMembers(m);
  }

  lemma EnvelopeInjective(a: Record, b: Record)
    requires Envelope(a) == Envelope(b)
    ensures a.prevHash == b.prevHash && a.principal == b.principal && a.requestId == b.requestId
    ensures a.runId == b.runId && a.segmentSeq == b.segmentSeq && a.serverId == b.serverId && a.timestamp == b.timestamp
  {
    NumberInjective(a.segmentSeq, b.segmentSeq);
  }

  lemma SameDetail(a: Record, b: Record)
    requires KindName(a.detail) == KindName(b.detail)
    ensures a.detail.Proposal? == b.detail.Proposal? && a.detail.Approval? == b.detail.Approval?
    ensures a.detail.ApplyIntent? == b.detail.ApplyIntent? && a.detail.Receipt? == b.detail.Receipt?
  {
    var (x, y) := (KindName(a.detail), KindName(b.detail));
    assert |x| == |y| && x[9] == y[9];
    assert x[10] == y[10];
  }

  lemma TailInjective(a: Record, b: Record)
    requires Tail(a) == Tail(b)
    ensures a.metadata == b.metadata && Envelope(a) == Envelope(b) && KindName(a.detail) == KindName(b.detail)
    ensures a.detail.Receipt? && b.detail.Receipt? ==> a.detail.outcome == b.detail.outcome
  {
    SameDetail(a, b);
    assert "metadata"[0] != "outcome"[0] && "metadata"[0] != "prev_hash"[0] && "outcome"[0] != "prev_hash"[0];
    hide Envelope;
    assert Envelope(a).Member? ==> Envelope(a).key == "prev_hash";
  }

  lemma MiddleInjective(a: Record, b: Record)
    requires Middle(a) == Middle(b)
    ensures a.deviceId == b.deviceId && a.diffHash == b.diffHash
    ensures ErrorOf(a.detail) == ErrorOf(b.detail) && Tail(a) == Tail(b)
  {
    assert Tail(a).key[0] == 'k' && Tail(b).key[0] == 'k' && "error"[0] == 'e';
    hide Tail, ErrorOf;
  }

  lemma ToJsonInjective(a: Record, b: Record)
    requires ToJson(a) == ToJson(b)
    ensures a == b
  {
    assert "approver"[0] != "changeset_id"[0];
    assert Middle(a) == Middle(b) && a.changesetId == b.changesetId
           && (a.detail.Approval? ==> b.detail.Approval? && a.detail == b.detail) by { hide Middle; }
    MiddleInjective(a, b);
    TailInjective(a, b);
    EnvelopeInjective(a, b);
    SameDetail(a, b);
    hide Middle, Tail, Envelope, KindName;
  }

  // ---- hashing ------------------------------------------------------------------------

  /** Collisions never happen and no hash is the empty string. */
  ghost predicate IdealHash(h: string -> string) {
    (forall x, y :: h(x) == h(y) ==> x == y) && (forall x :: h(x) != "")
  }

  /** The hash of a record, over its canonical JSON with the link included. */
  function RecordHash(h: string -> string, r: Record): string {
    h(CanonicalText(ToJson(r)))
  }

  /** Canonicalisation accepts a record exactly when its metadata is not nested too deep. */
  lemma HashableIff(r: Record)
    requires Storable(r)
    ensures Height(ToJson(r)) <= MAX_CANONICAL_DEPTH <==> Shallow(r)
  {
    RecordFormed(r);
    if r.metadata.Some? {
      MetadataDepth(r);
    }
  }

  /** A record is determined by its hash: every field, the link to its predecessor included. */
  lemma HashDetermines(h: string -> string, a: Record, b: Record)
    requires IdealHash(h) && Storable(a) && Storable(b)
    requires RecordHash(h, a) == RecordHash(h, b)
    ensures a == b
  {
    RecordFormed(a);
    RecordFormed(b);
    NormalIsSorted(ToJson(a));
    NormalIsSorted(ToJson(b));
    RenderInjective(ToJson(a), ToJson(b));
    ToJsonInjective(a, b);
  }
}
