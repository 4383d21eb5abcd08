/** Linked record lists, segments, and what a head hash pins down. */
module EvidenceChain {
  import opened Text
  import opened Canonical
  import opened Evidence

  type Hash = string -> string

  /** Each record names the hash of the one before it, the first one `start`. */
  predicate Linked(h: Hash, start: string, rs: seq<Record>) {
    rs == [] || (Linked(h, start, rs[..|rs| - 1]) && rs[|rs| - 1].prevHash == Head(h, start, rs[..|rs| - 1]))
  }

  /** The hash a successor must name. */
  function Head(h: Hash, start: string, rs: seq<Record>): string {
    if rs == [] then start else RecordHash(h, rs[|rs| - 1])
  }

  ghost predicate AllStorable(rs: seq<Record>) {
    forall i :: 0 <= i < |rs| ==> Storable(rs[i])
  }

  predicate IsSuffix<T(==)>(a: seq<T>, b: seq<T>) {
    |a| <= |b| && b[|b| - |a|..] == a
  }

  lemma SuffixGrows<T>(a: seq<T>, b: seq<T>)
    requires a != [] && b != [] && a[|a| - 1] == b[|b| - 1] && IsSuffix(a[..|a| - 1], b[..|b| - 1])
    ensures IsSuffix(a, b)
  {
  }

  // ---- tamper evidence ---------------------------------------------------------------

  /** Two linked lists with one head: one is a suffix of the other. */
  lemma {:induction false} SameHeadSameHistory(h: Hash, p: string, a: seq<Record>, q: string, b: seq<Record>)
    requires IdealHash(h) && AllStorable(a) && AllStorable(b)
    requires Linked(h, p, a) && Linked(h, q, b) && Head(h, p, a) == Head(h, q, b)
    ensures IsSuffix(a, b) || IsSuffix(b, a)
    decreases |a|
  {
    hide RecordHash, Storable, IdealHash;
    if a != [] && b != [] {
      var (m, n) := (|a| - 1, |b| - 1);
      HashDetermines(h, a[m], b[n]);
      SameHeadSameHistory(h, p, a[..m], q, b[..n]);
      hide Linked, Head;
      if IsSuffix(a[..m], b[..n]) {
        SuffixGrows(a, b);
      } else {
        SuffixGrows(b, a);
      }
    }
  }

  lemma HeadNeverStart(h: Hash, rs: seq<Record>)
    requires IdealHash(h) && Head(h, "", rs) == ""
    ensures rs == []
  {
  }

  /** From the empty start, the head determines the whole list: editing, dropping, inserting or
      reordering any record changes it. */
  lemma {:induction false} HeadDeterminesChain(h: Hash, a: seq<Record>, b: seq<Record>)
    requires IdealHash(h) && AllStorable(a) && AllStorable(b)
    requires Linked(h, "", a) && Linked(h, "", b) && Head(h, "", a) == Head(h, "", b)
    ensures a == b
    decreases |a|
  {
    hide RecordHash, Storable, IdealHash;
    if a == [] {
      HeadNeverStart(h, b);
    } else if b == [] {
      HeadNeverStart(h, a);
    } else {
      var (m, n) := (|a| - 1, |b| - 1);
      HashDetermines(h, a[m], b[n]);
      HeadDeterminesChain(h, a[..m], b[..n]);
      assert a == a[..m] + [a[m]] && b == b[..n] + [b[n]];
    }
  }

  lemma {:induction false} LinkedConcat(h: Hash, p: string, a: seq<Record>, b: seq<Record>)
    ensures Linked(h, p, a + b) <==> Linked(h, p, a) && Linked(h, Head(h, p, a), b)
    ensures Head(h, p, a + b) == Head(h, Head(h, p, a), b)
    decreases |b|
  {
    hide RecordHash;
    if b == [] {
      assert a + b == a;
    } else {
      var n := |b| - 1;
      LinkedConcat(h, p, a, b[..n]);
      assert (a + b)[..|a| + n] == a + b[..n];
    }
  }

  // ---- segments ------------------------------------------------------------------------

  /** A segment still being written. */
  datatype Segment = Segment(
    runId: string, serverId: string, segmentSeq: nat, prevHash: string, records: seq<Record>, lastHash: Option<string>)

  datatype Closed = Closed(
    runId: string, serverId: string, segmentSeq: nat, prevHash: string, records: seq<Record>, headHash: string)

  datatype Rejected = RunId | ServerId | SegmentSeq | PrevHash | TooDeep

  datatype Appended = Ok(segment: Segment) | Err(why: Rejected)

  function NewSegment(runId: string, serverId: string, seqNo: nat, prevHash: string): Segment {
    Segment(runId, serverId, seqNo, prevHash, [], None)
  }

  function Previous(s: Segment): string {
    if s.lastHash.Some? then s.lastHash.value else s.prevHash
  }

  /** The record as it goes into the chain. */
  function Enveloped(s: Segment, r: Record): Record {
    r.(runId := s.runId, serverId := s.serverId, segmentSeq := s.segmentSeq, prevHash := Previous(s))
  }

  /** Append a record, filling in its envelope; a filled-in envelope must already match, and the
      link is never the caller's to set. */
  function Append(h: Hash, s: Segment, r: Record): Appended {
    if r.runId != "" && r.runId != s.runId then Err(RunId)
    else if r.serverId != "" && r.serverId != s.serverId then Err(ServerId)
    else if r.segmentSeq != 0 && r.segmentSeq != s.segmentSeq then Err(SegmentSeq)
    else if r.prevHash != "" then Err(PrevHash)
    else
      var n := Enveloped(s, r);
      if Height(ToJson(n)) > MAX_CANONICAL_DEPTH then Err(TooDeep)
      else Ok(s.(records := s.records + [n], lastHash := Some(RecordHash(h, n))))
  }

  function Close(s: Segment): Closed {
    Closed(s.runId, s.serverId, s.segmentSeq, s.prevHash, s.records, Previous(s))
  }

  /** A segment is in order: linked inside, and its last hash is the hash of its last record. */
  ghost predicate SegmentOk(h: Hash, s: Segment) {
    && Linked(h, s.prevHash, s.records) && AllStorable(s.records)
    && Previous(s) == Head(h, s.prevHash, s.records)
  }

  /** A record with nothing filled in, as the recorder builds them. */
  predicate Blank(r: Record) {
    r.runId == "" && r.serverId == "" && r.segmentSeq == 0 && r.prevHash == ""
  }

  /** Appending keeps a segment in order and adds exactly the record given, its envelope filled in. */
  lemma AppendOk(h: Hash, s: Segment, r: Record)
    requires SegmentOk(h, s) && Storable(r)
    ensures var a := Append(h, s, r);
            && (a.Ok? ==> SegmentOk(h, a.segment) && a.segment.records == s.records + [Enveloped(s, r)])
            && (a.Ok? <==> r.prevHash == "" && r.runId in {"", s.runId} && r.serverId in {"", s.serverId}
                           && r.segmentSeq in {0, s.segmentSeq} && Shallow(r))
  {
    var n := Enveloped(s, r);
    HashableIff(n);
    assert Shallow(n) <==> Shallow(r);
    var all := s.records + [n];
    assert all[..|all| - 1] == s.records;
    hide ToJson, RecordHash;
  }
}
