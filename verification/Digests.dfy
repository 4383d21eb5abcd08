/** What the plan, approval and waiver digests are computed over, and that no two different
    things are ever hashed as one. */
module Digests {
  import opened Text
  import opened Json
  import opened Records

  // ---- tuple encodings ------------------------------------------------------------

  function List(xs: seq<Json>): Items {
    if xs == [] then NoItems else Item(xs[0], List(xs[1..]))
  }

  function Texts(xs: seq<string>): seq<Json> {
    seq(|xs|, i requires 0 <= i < |xs| => Str(xs[i]))
  }

  function MaybeText(s: Option<string>): Json { if s.Some? then Str(s.value) else Null }

  function MaybeNumber(n: Option<nat>): Json { if n.Some? then Number(n.value) else Null }

  function KindName(k: WaiverKind): string {
    match k case LabMode => "lab_mode" case OperatorFile => "operator_file" case OperatorTool => "operator_tool"
  }

  /** Everything that is hashed as a serialised tuple. */
  datatype Subject =
    | ThePlan(owner: string, device: string, fingerprint: string, actions: seq<Json>, targets: seq<string>)
    | ApprovalV4(id: string, plan: string, owner: string, approver: string, at: nat)
    | ApprovalV5(id: string, plan: string, preview: Option<string>, owner: string, approver: string, at: nat)
    | ApprovalV6(id: string, plan: string, preview: Option<string>, owner: string, approver: string, at: nat)
    | WaiverV3(id: string, plan: string, owner: string, at: nat, waiver: Waiver)

  function Fields(s: Subject): seq<Json> {
    match s
    case ThePlan(o, d, f, actions, targets) =>
      [Str(o), Str(d), Str(f), Arr(List(actions))] + (if targets == [] then [] else [Arr(List(Texts(targets)))])
    case ApprovalV4(id, p, o, a, at) =>
      [Str("mecmcp-approval-v4"), Str(id), Str(p), Str(o), Str(a), Number(at)]
    case ApprovalV5(id, p, v, o, a, at) =>
      [Str("mecmcp-approval-v5"), Str(id), Str(p), MaybeText(v), Str(o), Str(a), Number(at)]
    case ApprovalV6(id, p, v, o, a, at) =>
      [Str("mecmcp-approval-v6"), Str(id), Str(p), MaybeText(v), Str(o), Str(a), Number(at)]
    case WaiverV3(id, p, o, at, w) =>
      [Str("mecmcp-waiver-v3"), Str(id), Str(p), Str(o), Number(at),
       Str(KindName(w.kind)), Str(w.reason), MaybeNumber(w.expiresAt), MaybeText(w.ticket)]
  }

  /** The bytes that are hashed. */
  function Preimage(s: Subject): string {
    Render(Arr(List(Fields(s))))
  }

  ghost predicate Encodable(s: Subject) {
    s.ThePlan? ==> forall i :: 0 <= i < |s.actions| ==> Valid(s.actions[i])
  }

  lemma {:induction false} ListInjective(xs: seq<Json>, ys: seq<Json>)
    requires List(xs) == List(ys)
    ensures xs == ys
  {
    if xs != [] && ys != [] {
      ListInjective(xs[1..], ys[1..]);
      assert xs == [xs[0]] + xs[1..] && ys == [ys[0]] + ys[1..];
    }
  }

  lemma {:induction false} ListValid(xs: seq<Json>)
    requires forall i :: 0 <= i < |xs| ==> Valid(xs[i])
    ensures ValidItems(List(xs))
  {
    if xs != [] {
      assert Valid(xs[0]);
      ListValid(xs[1..]);
    }
  }

  lemma FieldsValid(s: Subject)
    requires Encodable(s)
    ensures ValidItems(List(Fields(s)))
  {
    match s
    case ThePlan(_, _, _, actions, targets) =>
      ListValid(actions);
      ListValid(Texts(targets));
      ListValid(Fields(s));
    case ApprovalV4(_, _, _, _, at) => NumberValid(at); ListValid(Fields(s));
    case ApprovalV5(_, _, _, _, _, at) => NumberValid(at); ListValid(Fields(s));
    case ApprovalV6(_, _, _, _, _, at) => NumberValid(at); ListValid(Fields(s));
    case WaiverV3(_, _, _, at, w) =>
      NumberValid(at);
      if w.expiresAt.Some? { NumberValid(w.expiresAt.value); }
      ListValid(Fields(s));
  }

  lemma TextsInjective(xs: seq<string>, ys: seq<string>)
    requires Texts(xs) == Texts(ys)
    ensures xs == ys
  {
    assert |xs| == |Texts(xs)| == |Texts(ys)| == |ys|;
    forall i | 0 <= i < |xs| ensures xs[i] == ys[i] {
      assert Texts(xs)[i] == Texts(ys)[i];
    }
  }

  lemma PlanFieldsInjective(a: Subject, b: Subject)
    requires a.ThePlan? && b.ThePlan? && Fields(a) == Fields(b)
    ensures a == b
  {
    var (f, g) := (Fields(a), Fields(b));
    assert f[0] == g[0] && f[1] == g[1] && f[2] == g[2] && f[3] == g[3];
    ListInjective(a.actions, b.actions);
    if a.targets != [] {
      assert |f| == 5 && |g| == 5 && f[4] == g[4];
      ListInjective(Texts(a.targets), Texts(b.targets));
      TextsInjective(a.targets, b.targets);
    }
  }

  lemma ApprovalFieldsInjective(a: Subject, b: Subject)
    requires (a.ApprovalV4? && b.ApprovalV4?) || (a.ApprovalV5? && b.ApprovalV5?) || (a.ApprovalV6? && b.ApprovalV6?)
    requires Fields(a) == Fields(b)
    ensures a == b
  {
    var (f, g) := (Fields(a), Fields(b));
    assert f[1] == g[1] && f[2] == g[2] && f[3] == g[3] && f[4] == g[4] && f[5] == g[5];
    if !a.ApprovalV4? {
      assert f[6] == g[6];
    }
    NumberInjective(a.at, b.at);
  }

  lemma KindNameInjective(a: WaiverKind, b: WaiverKind)
    requires KindName(a) == KindName(b)
    ensures a == b
  {
    var (x, y) := (KindName(a), KindName(b));
    assert |x| == |y| && (|x| > 9 ==> x[9] == y[9]);
  }

  lemma WaiverFieldsInjective(a: Subject, b: Subject)
    requires a.WaiverV3? && b.WaiverV3? && Fields(a) == Fields(b)
    ensures a == b
  {
    var (f, g) := (Fields(a), Fields(b));
    assert f[1] == g[1] && f[2] == g[2] && f[3] == g[3] && f[4] == g[4];
    NumberInjective(a.at, b.at);
    assert f[5] == g[5] && f[6] == g[6] && f[7] == g[7] && f[8] == g[8];
    var (x, y) := (a.waiver, b.waiver);
    KindNameInjective(x.kind, y.kind);
    if x.expiresAt.Some? {
      NumberInjective(x.expiresAt.value, y.expiresAt.value);
    }
  }

  lemma SameKind(a: Subject, b: Subject)
    requires Fields(a) == Fields(b)
    ensures a.ThePlan? <==> b.ThePlan?
    ensures a.ApprovalV4? <==> b.ApprovalV4?
    ensures a.ApprovalV5? <==> b.ApprovalV5?
    ensures a.ApprovalV6? <==> b.ApprovalV6?
    ensures a.WaiverV3? <==> b.WaiverV3?
  {
    var (f, g) := (Fields(a), Fields(b));
    assert |f| == |g| && f[0].text == g[0].text;
    assert "mecmcp-approval-v5"[17] != "mecmcp-approval-v6"[17];
  }

  /** Equal preimages come from one subject: every field of every kind is recovered, for arbitrary
      strings, and no preimage of one kind is a preimage of another. */
  lemma PreimageDetermines(a: Subject, b: Subject)
    requires Encodable(a) && Encodable(b) && Preimage(a) == Preimage(b)
    ensures a == b
  {
    FieldsValid(a);
    FieldsValid(b);
    RenderInjective(Arr(List(Fields(a))), Arr(List(Fields(b))));
    ListInjective(Fields(a), Fields(b));
    SameKind(a, b);
    match a
    case ThePlan(_, _, _, _, _) => PlanFieldsInjective(a, b);
    case WaiverV3(_, _, _, _, _) => WaiverFieldsInjective(a, b);
    case _ => ApprovalFieldsInjective(a, b);
  }

  function Renders(xs: seq<Json>): seq<string> {
    seq(|xs|, i requires 0 <= i < |xs| => Render(xs[i]))
  }

  lemma {:induction false} ListText(xs: seq<Json>)
    ensures RenderItems(List(xs), true) == Commas(Renders(xs))
    ensures xs != [] ==> RenderItems(List(xs), false) == "," + Commas(Renders(xs))
  {
    hide Render;
    if xs != [] {
      ListText(xs[1..]);
      assert Renders(xs)[1..] == Renders(xs[1..]);
      assert Renders(xs)[0] == Render(xs[0]);
      if |xs| > 1 {
        assert RenderItems(List(xs[1..]), false) == "," + Commas(Renders(xs[1..]));
      }
    }
  }

  function Bracketed(parts: seq<string>): string { "[" + Commas(parts) + "]" }

  function QuoteOrNull(s: Option<string>): string { if s.Some? then Quote(s.value) else "null" }

  /** What is hashed for an approval, to the letter. */
  lemma ApprovalText(id: string, plan: string, preview: Option<string>, owner: string, approver: string, at: nat)
    ensures Preimage(ApprovalV4(id, plan, owner, approver, at))
         == Bracketed([Quote("mecmcp-approval-v4"), Quote(id), Quote(plan), Quote(owner), Quote(approver), Decimal(at)])
    ensures Preimage(ApprovalV5(id, plan, preview, owner, approver, at))
         == Bracketed([Quote("mecmcp-approval-v5"), Quote(id), Quote(plan), QuoteOrNull(preview), Quote(owner),
                       Quote(approver), Decimal(at)])
    ensures Preimage(ApprovalV6(id, plan, preview, owner, approver, at))
         == Bracketed([Quote("mecmcp-approval-v6"), Quote(id), Quote(plan), QuoteOrNull(preview), Quote(owner),
                       Quote(approver), Decimal(at)])
  {
    hide Quote, Decimal, Commas;
    var v4 := Fields(ApprovalV4(id, plan, owner, approver, at));
    ListText(v4);
    assert Renders(v4)
        == [Quote("mecmcp-approval-v4"), Quote(id), Quote(plan), Quote(owner), Quote(approver), Decimal(at)];
    var v5 := Fields(ApprovalV5(id, plan, preview, owner, approver, at));
    ListText(v5);
    assert Renders(v5) == [Quote("mecmcp-approval-v5"), Quote(id), Quote(plan), QuoteOrNull(preview), Quote(owner),
                           Quote(approver), Decimal(at)];
    var v6 := Fields(ApprovalV6(id, plan, preview, owner, approver, at));
    ListText(v6);
    assert Renders(v6) == [Quote("mecmcp-approval-v6"), Quote(id), Quote(plan), QuoteOrNull(preview), Quote(owner),
                           Quote(approver), Decimal(at)];
  }

  /** What is hashed for a waiver, to the letter. */
  lemma WaiverText(id: string, plan: string, owner: string, at: nat, w: Waiver)
    ensures Preimage(WaiverV3(id, plan, owner, at, w))
         == Bracketed([Quote("mecmcp-waiver-v3"), Quote(id), Quote(plan), Quote(owner), Decimal(at)]
                      + [Quote(if w.kind.LabMode? then "lab_mode"
                               else if w.kind.OperatorFile? then "operator_file" else "operator_tool"),
                         Quote(w.reason), if w.expiresAt.Some? then Decimal(w.expiresAt.value) else "null",
                         QuoteOrNull(w.ticket)])
  {
    hide Quote, Decimal, Commas;
    var f := Fields(WaiverV3(id, plan, owner, at, w));
    ListText(f);
    assert Renders(f)
        == [Quote("mecmcp-waiver-v3"), Quote(id), Quote(plan), Quote(owner), Decimal(at)]
           + [Quote(if w.kind.LabMode? then "lab_mode"
                    else if w.kind.OperatorFile? then "operator_file" else "operator_tool"),
              Quote(w.reason), if w.expiresAt.Some? then Decimal(w.expiresAt.value) else "null",
              QuoteOrNull(w.ticket)];
  }

  /** A plan without targets is hashed as if targets had never existed. */
  lemma PlanText(owner: string, device: string, fingerprint: string, actions: seq<Json>, targets: seq<string>)
    ensures Preimage(ThePlan(owner, device, fingerprint, actions, targets))
         == Bracketed([Quote(owner), Quote(device), Quote(fingerprint), Bracketed(Renders(actions))]
                      + if targets == [] then [] else [Bracketed(Renders(Texts(targets)))])
  {
    hide Quote, Commas;
    var f := Fields(ThePlan(owner, device, fingerprint, actions, targets));
    ListText(f);
    ListText(actions);
    ListText(Texts(targets));
    assert Renders(f) == [Quote(owner), Quote(device), Quote(fingerprint), Bracketed(Renders(actions))]
                         + if targets == [] then [] else [Bracketed(Renders(Texts(targets)))];
  }

  /** What a genuine approval of version 5, or a keyed one of version 6, is computed over. */
  function Approved(r: ChangeSet): Subject
    requires Genuine(r)
  {
    var a := r.approval.value;
    if a.digestVersion == 6
    then ApprovalV6(r.id, r.digest, PreviewDigestOf(r), r.owner, a.approver.value, a.approvedAt)
    else ApprovalV5(r.id, r.digest, PreviewDigestOf(r), r.owner, a.approver.value, a.approvedAt)
  }

  /** The stored digest is that of the record's own fields: the hash for version 5, the deployment's
      keyed one for version 6. */
  predicate Signed(sha: string -> string, mac: string -> string, r: ChangeSet) {
    && Genuine(r) && 5 <= r.approval.value.digestVersion <= 6
    && r.approval.value.digest
       == if r.approval.value.digestVersion == 6 then mac(Preimage(Approved(r))) else sha(Preimage(Approved(r)))
  }

  /** One approval digest of either version stands for one change set, plan, preview, owner, approver
      and moment. */
  lemma OneDigestOneApproval(sha: string -> string, mac: string -> string, r: ChangeSet, s: ChangeSet)
    requires forall x, y :: sha(x) == sha(y) ==> x == y
    requires forall x, y :: mac(x) == mac(y) ==> x == y
    requires Signed(sha, mac, r) && Signed(sha, mac, s)
    requires r.approval.value.digest == s.approval.value.digest
    requires r.approval.value.digestVersion == s.approval.value.digestVersion
    ensures r.id == s.id && r.digest == s.digest && PreviewDigestOf(r) == PreviewDigestOf(s) && r.owner == s.owner
    ensures r.approval.value.approver == s.approval.value.approver
    ensures r.approval.value.approvedAt == s.approval.value.approvedAt
  {
    hide Preimage;
    PreimageDetermines(Approved(r), Approved(s));
  }

  // ---- the bar-joined encodings of older records --------------------------------------

  function LegacyApproval(id: string, plan: string, owner: string, approver: string, at: nat): string {
    id + "|" + plan + "|" + owner + "|" + approver + "|" + Decimal(at)
  }

  function LegacyWaiver(id: string, plan: string, owner: string, at: nat): string {
    id + "|" + plan + "|" + owner + "|" + Decimal(at) + "|" + "lab-mode-waived"
  }

  /** `validate_principal_for_digest` accepts exactly these. */
  predicate BarFree(s: string) { forall i :: 0 <= i < |s| ==> s[i] != '|' }

  function Bars(s: string): nat {
    if s == [] then 0 else (if s[0] == '|' then 1 else 0) + Bars(s[1..])
  }

  lemma {:induction false} BarsAdd(a: string, b: string)
    ensures Bars(a + b) == Bars(a) + Bars(b)
  {
    if a == [] {
      assert a + b == b;
    } else {
      assert (a + b)[1..] == a[1..] + b;
      BarsAdd(a[1..], b);
    }
  }

  lemma {:induction false} NoBars(s: string)
    ensures Bars(s) == 0 <==> BarFree(s)
  {
    if s != [] {
      NoBars(s[1..]);
      assert BarFree(s) <==> s[0] != '|' && BarFree(s[1..]) by {
        assert s == [s[0]] + s[1..];
      }
    }
  }

  /** A bar-free text is recovered from what precedes the first bar. */
  lemma SplitAtBar(a: string, x: string, b: string, y: string)
    requires BarFree(a) && BarFree(b) && a + "|" + x == b + "|" + y
    ensures a == b && x == y
  {
    var s := a + "|" + x;
    assert s[|a|] == '|';
    var t := b + "|" + y;
    assert t[|b|] == '|';
    assert s[..|a|] == a && t[..|b|] == b;
    assert s[|a| + 1..] == x && t[|b| + 1..] == y;
  }

  lemma SplitAtLastBar(x: string, a: string, y: string, b: string)
    requires BarFree(a) && BarFree(b) && x + "|" + a == y + "|" + b
    ensures x == y && a == b
  {
    var s := x + "|" + a;
    assert s[|x|] == '|';
    var t := y + "|" + b;
    assert t[|y|] == '|';
    assert s[..|x|] == x && t[..|y|] == y;
    assert s[|x| + 1..] == a && t[|y| + 1..] == b;
  }

  predicate Formats(id: string, plan: string) { ValidId(id) && ValidDigest(plan) }

  lemma FormatsAreBarFree(id: string, plan: string)
    requires Formats(id, plan)
    ensures BarFree(id) && BarFree(plan)
  {
    forall i | 0 <= i < |plan| ensures plan[i] != '|' {
      if i < 7 {
        assert plan[..7][i] == DIGEST_PREFIX[i];
      } else {
        assert plan[7..][i - 7] == plan[i];
      }
    }
  }

  lemma DecimalBarFree(n: nat)
    ensures BarFree(Decimal(n))
  {
    DecimalReads(n);
  }

  /** The id and the plan digest are always recovered; what is left is one string. */
  lemma LegacyHead(id: string, plan: string, x: string, id': string, plan': string, y: string)
    requires Formats(id, plan) && Formats(id', plan')
    requires id + "|" + plan + "|" + x == id' + "|" + plan' + "|" + y
    ensures id == id' && plan == plan' && x == y
  {
    FormatsAreBarFree(id, plan);
    FormatsAreBarFree(id', plan');
    assert id + "|" + plan + "|" + x == id + "|" + (plan + "|" + x);
    assert id' + "|" + plan' + "|" + y == id' + "|" + (plan' + "|" + y);
    SplitAtBar(id, plan + "|" + x, id', plan' + "|" + y);
    SplitAtBar(plan, x, plan', y);
  }

  lemma LegacyApprovalParts(id: string, plan: string, owner: string, approver: string, at: nat)
    ensures LegacyApproval(id, plan, owner, approver, at)
         == id + "|" + plan + "|" + (owner + "|" + (approver + "|" + Decimal(at)))
  {
  }

  /** A legacy approval digest is a digest of this pairing and no other. */
  ghost predicate Unambiguous(owner: string, approver: string) {
    forall id, plan, at: nat, id', plan', owner', approver', at': nat ::
      Formats(id, plan) && Formats(id', plan')
      && LegacyApproval(id, plan, owner, approver, at) == LegacyApproval(id', plan', owner', approver', at')
      ==> id == id' && plan == plan' && owner == owner' && approver == approver' && at == at'
  }

  lemma BarFreePairIsRecovered(id: string, plan: string, owner: string, approver: string, at: nat,
                               id': string, plan': string, owner': string, approver': string, at': nat)
    requires Formats(id, plan) && Formats(id', plan') && BarFree(owner) && BarFree(approver)
    requires LegacyApproval(id, plan, owner, approver, at) == LegacyApproval(id', plan', owner', approver', at')
    ensures id == id' && plan == plan' && owner == owner' && approver == approver' && at == at'
  {
    LegacyApprovalParts(id, plan, owner, approver, at);
    LegacyApprovalParts(id', plan', owner', approver', at');
    var (x, y) := (approver + "|" + Decimal(at), approver' + "|" + Decimal(at'));
    LegacyHead(id, plan, owner + "|" + x, id', plan', owner' + "|" + y);
    PairBars(owner, approver, at);
    PairBars(owner', approver', at');
    NoBars(owner);
    NoBars(approver);
    NoBars(owner');
    NoBars(approver');
    SplitAtBar(owner, x, owner', y);
    SplitAtBar(approver, Decimal(at), approver', Decimal(at'));
    DecimalReads(at);
    DecimalReads(at');
  }

  lemma PairBars(owner: string, approver: string, at: nat)
    ensures Bars(owner + "|" + (approver + "|" + Decimal(at))) == Bars(owner) + Bars(approver) + 2
  {
    var d := Decimal(at);
    DecimalBarFree(at);
    NoBars(d);
    BarsAdd(owner + "|", approver + "|" + d);
    BarsAdd(owner, "|");
    BarsAdd(approver + "|", d);
    BarsAdd(approver, "|");
    assert Bars("|") == 1;
  }

  const SOME_ID: string := seq(64, _ => '0')
  const SOME_PLAN: string := DIGEST_PREFIX + SOME_ID

  lemma MovedBar(p: string, q: string, r: string)
    ensures LegacyApproval(SOME_ID, SOME_PLAN, p + "|" + q, r, 0)
         == LegacyApproval(SOME_ID, SOME_PLAN, p, q + "|" + r, 0)
    ensures Formats(SOME_ID, SOME_PLAN)
  {
    assert SOME_PLAN[..7] == DIGEST_PREFIX && SOME_PLAN[7..] == SOME_ID;
    var d := "|" + Decimal(0);
    assert LegacyApproval(SOME_ID, SOME_PLAN, p + "|" + q, r, 0)
        == SOME_ID + "|" + SOME_PLAN + "|" + (p + "|" + q + "|" + r + d);
    assert LegacyApproval(SOME_ID, SOME_PLAN, p, q + "|" + r, 0)
        == SOME_ID + "|" + SOME_PLAN + "|" + (p + "|" + q + "|" + r + d);
  }

  lemma BarSplits(s: string) returns (p: string, q: string)
    requires !BarFree(s)
    ensures s == p + "|" + q
  {
    var i :| 0 <= i < |s| && s[i] == '|';
    p, q := s[..i], s[i + 1..];
  }

  /** The bar-joined approval names one pairing exactly when neither principal contains a bar,
      which is what principals are checked for. */
  lemma LegacyUnambiguousIff(owner: string, approver: string)
    ensures Unambiguous(owner, approver) <==> BarFree(owner) && BarFree(approver)
  {
    if BarFree(owner) && BarFree(approver) {
      forall id, plan, at: nat, id', plan', owner', approver', at': nat |
        Formats(id, plan) && Formats(id', plan')
        && LegacyApproval(id, plan, owner, approver, at) == LegacyApproval(id', plan', owner', approver', at')
        ensures id == id' && plan == plan' && owner == owner' && approver == approver' && at == at'
      {
        BarFreePairIsRecovered(id, plan, owner, approver, at, id', plan', owner', approver', at');
      }
    } else if !BarFree(owner) {
      var p, q := BarSplits(owner);
      MovedBar(p, q, approver);
      assert owner != p;
    } else {
      var p, q := BarSplits(approver);
      MovedBar(owner, p, q);
      assert approver != q;
    }
  }

  /** The bar-joined waiver names one owner whatever the owner contains, and is never an approval. */
  lemma LegacyWaiverDetermines(id: string, plan: string, owner: string, at: nat,
                               id': string, plan': string, owner': string, at': nat)
    requires Formats(id, plan) && Formats(id', plan')
    requires LegacyWaiver(id, plan, owner, at) == LegacyWaiver(id', plan', owner', at')
    ensures id == id' && plan == plan' && owner == owner' && at == at'
  {
    hide Decimal, ReadDecimal, BarFree, Formats;
    var mark := "|" + "lab-mode-waived";
    var (x, y) := (owner + "|" + Decimal(at), owner' + "|" + Decimal(at'));
    assert LegacyWaiver(id, plan, owner, at) == id + "|" + plan + "|" + (x + mark);
    assert LegacyWaiver(id', plan', owner', at') == id' + "|" + plan' + "|" + (y + mark);
    LegacyHead(id, plan, x + mark, id', plan', y + mark);
    assert |x| == |y| && (x + mark)[..|x|] == x && (y + mark)[..|y|] == y;
    DecimalBarFree(at);
    DecimalBarFree(at');
    SplitAtLastBar(owner, Decimal(at), owner', Decimal(at'));
    DecimalReads(at);
    DecimalReads(at');
  }

  lemma LegacyKindsApart(id: string, plan: string, owner: string, approver: string, at: nat,
                         id': string, plan': string, owner': string, at': nat)
    ensures LegacyApproval(id, plan, owner, approver, at) != LegacyWaiver(id', plan', owner', at')
  {
    var (a, w) := (LegacyApproval(id, plan, owner, approver, at), LegacyWaiver(id', plan', owner', at'));
    DecimalReads(at);
    assert a[|a| - 1] == Decimal(at)[|Decimal(at)| - 1];
    assert w[|w| - 1] == "lab-mode-waived"[14];
  }

  /** No older record's preimage is a tuple's. */
  lemma LegacyAndTupleApart(s: Subject, id: string, rest: string)
    requires ValidId(id)
    ensures Preimage(s) != id + "|" + rest
  {
    assert IsLowerHex(id[0]);
    assert Preimage(s)[0] == '[' && (id + "|" + rest)[0] == id[0];
  }

  // ---- hashing -------------------------------------------------------------------------

  /** An incremental hash: what it has been fed so far. */
  class Hasher {
    var fed: string

    constructor ()
      ensures fed == ""
    {
      fed := "";
    }

    method Update(s: string)
      modifies this
      ensures fed == old(fed) + s
    {
      fed := fed + s;
    }
  }

  /** The legacy approval digest, fed to the hasher field by field. */
  method ApprovalDigestLegacy(sha: string -> seq<Byte>, id: string, plan: string, owner: string, approver: string,
                              at: nat)
    returns (digest: string)
    ensures digest == DIGEST_PREFIX + HexOf(sha(LegacyApproval(id, plan, owner, approver, at)))
  {
    var hasher := new Hasher();
    hasher.Update(id);
    hasher.Update("|");
    hasher.Update(plan);
    hasher.Update("|");
    hasher.Update(owner);
    hasher.Update("|");
    hasher.Update(approver);
    hasher.Update("|");
    hasher.Update(Decimal(at));
    assert hasher.fed == LegacyApproval(id, plan, owner, approver, at);
    var hex := BytesHex(sha(hasher.fed));
    digest := DIGEST_PREFIX + hex;
  }

  function HexOf(bytes: seq<Byte>): string {
    if bytes == [] then "" else [HEX[bytes[0] / 16], HEX[bytes[0] % 16]] + HexOf(bytes[1..])
  }

  function Unhex(s: string): seq<Byte>
    requires AllLowerHex(s)
  {
    if |s| < 2 then [] else [HexValue(s[0]) * 16 + HexValue(s[1])] + Unhex(s[2..])
  }

  lemma {:induction false} HexAppends(a: seq<Byte>, b: Byte)
    ensures HexOf(a + [b]) == HexOf(a) + [HEX[b / 16], HEX[b % 16]]
  {
    if a == [] {
      assert a + [b] == [b];
    } else {
      assert (a + [b])[1..] == a[1..] + [b];
      HexAppends(a[1..], b);
    }
  }

  /** Two lowercase hexadecimal characters a byte, from which the bytes are recovered. */
  lemma {:induction false} HexReadsBack(bytes: seq<Byte>)
    ensures |HexOf(bytes)| == 2 * |bytes| && AllLowerHex(HexOf(bytes))
    ensures Unhex(HexOf(bytes)) == bytes
  {
    if bytes != [] {
      HexReadsBack(bytes[1..]);
      var (n, h) := (bytes[0], HexOf(bytes));
      HexRoundTrip(n / 16);
      HexRoundTrip(n % 16);
      assert h[2..] == HexOf(bytes[1..]);
      assert h[0] == HEX[n / 16] && h[1] == HEX[n % 16];
      assert bytes == [bytes[0]] + bytes[1..];
    }
  }

  method BytesHex(bytes: seq<Byte>) returns (output: string)
    ensures output == HexOf(bytes)
  {
    output := "";
    for i := 0 to |bytes|
      invariant output == HexOf(bytes[..i])
    {
      HexAppends(bytes[..i], bytes[i]);
      assert bytes[..i + 1] == bytes[..i] + [bytes[i]];
      output := output + [HEX[bytes[i] / 16], HEX[bytes[i] % 16]];
    }
    assert bytes[..|bytes|] == bytes;
  }
}
