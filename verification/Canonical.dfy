/** Canonical JSON: object keys sorted, compact separators, bounded nesting. */
module Canonical {
  import opened Text
  import opened Json

  // ---- what a written value means ------------------------------------------------

  /** A value itself: objects are maps, so the order members were written in is gone. */
  datatype Value =
    | VNull | VBool(flag: bool) | VNum(token: string) | VStr(text: string)
    | VArr(items: seq<Value>) | VObj(members: map<string, Value>)

  function Denote(v: Json): Value {
    match v
    case Null => VNull
    case Bool(b) => VBool(b)
    case Num(t) => VNum(t)
    case Str(s) => VStr(s)
    case Arr(xs) => VArr(DenoteItems(xs))
    case Obj(m) => VObj(DenoteMembers(m))
  }

  function DenoteItems(xs: Items): seq<Value> {
    match xs case NoItems => [] case Item(x, tail) => [Denote(x)] + DenoteItems(tail)
  }

  function DenoteMembers(m: Members): map<string, Value> {
    match m case NoMembers => map[] case Member(k, v, rest) => DenoteMembers(rest)[k := Denote(v)]
  }

  /** No object names a key twice. */
  predicate Distinct(v: Json) {
    match v
    case Arr(xs) => DistinctItems(xs)
    case Obj(m) => DistinctMembers(m)
    case _ => true
  }

  predicate DistinctItems(xs: Items) {
    xs.Item? ==> Distinct(xs.head) && DistinctItems(xs.tail)
  }

  predicate DistinctMembers(m: Members) {
    m.Member? ==> m.key !in DenoteMembers(m.rest) && Distinct(m.value) && DistinctMembers(m.rest)
  }

  // ---- the canonical order ---------------------------------------------------------

  function Insert(k: string, v: Json, m: Members): Members {
    match m
    case NoMembers => Member(k, v, NoMembers)
    case Member(j, w, rest) => if Less(k, j) then Member(k, v, m) else Member(j, w, Insert(k, v, rest))
  }

  function Sort(v: Json): Json {
    match v
    case Arr(xs) => Arr(SortItems(xs))
    case Obj(m) => Obj(SortMembers(m))
    case _ => v
  }

  function SortItems(xs: Items): Items {
    match xs case NoItems => NoItems case Item(x, tail) => Item(Sort(x), SortItems(tail))
  }

  function SortMembers(m: Members): Members {
    match m case NoMembers => NoMembers case Member(k, v, rest) => Insert(k, Sort(v), SortMembers(rest))
  }

  /** The canonical text of a value. */
  function CanonicalText(v: Json): string {
    Render(Sort(v))
  }

  // ---- sorting changes nothing but order --------------------------------------------

  lemma {:induction false} InsertDenotes(k: string, v: Json, m: Members)
    requires k !in DenoteMembers(m)
    ensures DenoteMembers(Insert(k, v, m)) == DenoteMembers(m)[k := Denote(v)]
  {
    match m
    case NoMembers =>
    case Member(_, _, rest) => InsertDenotes(k, v, rest);
  }

  lemma {:induction false} SortDenotes(v: Json)
    requires Distinct(v)
    ensures Denote(Sort(v)) == Denote(v)
    decreases v
  {
    match v
    case Arr(xs) => SortDenotesItems(xs);
    case Obj(m) => SortDenotesMembers(m);
    case _ =>
  }

  lemma {:induction false} SortDenotesItems(xs: Items)
    requires DistinctItems(xs)
    ensures DenoteItems(SortItems(xs)) == DenoteItems(xs)
    decreases xs
  {
    if xs.Item? {
      SortDenotes(xs.head);
      SortDenotesItems(xs.tail);
    }
  }

  lemma {:induction false} SortDenotesMembers(m: Members)
    requires DistinctMembers(m)
    ensures DenoteMembers(SortMembers(m)) == DenoteMembers(m)
    decreases m
  {
    if m.Member? {
      SortDenotes(m.value);
      SortDenotesMembers(m.rest);
      InsertDenotes(m.key, Sort(m.value), SortMembers(m.rest));
    }
  }

  // ---- a canonical value is determined by its meaning ---------------------------------

  /** Every object's keys are strictly ascending. */
  predicate Normal(v: Json) {
    match v
    case Arr(xs) => NormalItems(xs)
    case Obj(m) => NormalMembers(m)
    case _ => true
  }

  predicate NormalItems(xs: Items) {
    xs.Item? ==> Normal(xs.head) && NormalItems(xs.tail)
  }

  predicate NormalMembers(m: Members) {
    m.Member? ==>
      && Normal(m.value) && NormalMembers(m.rest)
      && (m.rest.Member? ==> Less(m.key, m.rest.key))
  }

  lemma {:induction false} InsertNormal(k: string, v: Json, m: Members)
    requires NormalMembers(m) && Normal(v) && k !in DenoteMembers(m)
    ensures NormalMembers(Insert(k, v, m))
  {
    match m
    case NoMembers =>
    case Member(j, _, rest) =>
      LessTotal(k, j);
      if !Less(k, j) {
        InsertNormal(k, v, rest);
      }
  }

  lemma {:induction false} SortNormal(v: Json)
    requires Distinct(v)
    ensures Normal(Sort(v))
    decreases v
  {
    match v
    case Arr(xs) => SortNormalItems(xs);
    case Obj(m) => SortNormalMembers(m);
    case _ =>
  }

  lemma {:induction false} SortNormalItems(xs: Items)
    requires DistinctItems(xs)
    ensures NormalItems(SortItems(xs))
    decreases xs
  {
    if xs.Item? {
      SortNormal(xs.head);
      SortNormalItems(xs.tail);
    }
  }

  lemma {:induction false} SortNormalMembers(m: Members)
    requires DistinctMembers(m)
    ensures NormalMembers(SortMembers(m))
    decreases m
  {
    if m.Member? {
      SortNormal(m.value);
      SortNormalMembers(m.rest);
      SortDenotesMembers(m.rest);
      InsertNormal(m.key, Sort(m.value), SortMembers(m.rest));
    }
  }

  lemma {:induction false} FirstIsLeast(m: Members, k: string)
    requires NormalMembers(m) && m.Member? && k in DenoteMembers(m.rest)
    ensures Less(m.key, k)
    decreases m
  {
    if k != m.rest.key {
      FirstIsLeast(m.rest, k);
      LessTransitive(m.key, m.rest.key, k);
    }
  }

  lemma SameFirst(m: Members, n: Members)
    requires NormalMembers(m) && NormalMembers(n) && m.Member? && n.Member?
    requires DenoteMembers(m) == DenoteMembers(n)
    ensures m.key == n.key && Denote(m.value) == Denote(n.value) && DenoteMembers(m.rest) == DenoteMembers(n.rest)
  {
    var (d, e) := (DenoteMembers(m), DenoteMembers(n));
    if m.key != n.key {
      assert m.key in e && n.key in d;
      FirstIsLeast(m, n.key);
      FirstIsLeast(n, m.key);
      LessTransitive(m.key, n.key, m.key);
      LessIrreflexive(m.key);
    }
    assert d[m.key] == Denote(m.value) && e[m.key] == Denote(n.value);
    RestWithoutFirst(m);
    RestWithoutFirst(n);
  }

  lemma RestWithoutFirst(m: Members)
    requires NormalMembers(m) && m.Member?
    ensures DenoteMembers(m.rest) == DenoteMembers(m) - {m.key}
  {
    if m.key in DenoteMembers(m.rest) {
      FirstIsLeast(m, m.key);
      LessIrreflexive(m.key);
    }
  }

  lemma {:induction false} NormalUnique(a: Json, b: Json)
    requires Normal(a) && Normal(b) && Denote(a) == Denote(b)
    ensures a == b
    decreases a
  {
    match a
    case Arr(xs) => NormalUniqueItems(xs, b.items);
    case Obj(m) => NormalUniqueMembers(m, b.members);
    case _ =>
  }

  lemma {:induction false} NormalUniqueItems(xs: Items, ys: Items)
    requires NormalItems(xs) && NormalItems(ys) && DenoteItems(xs) == DenoteItems(ys)
    ensures xs == ys
    decreases xs
  {
    if xs.Item? && ys.Item? {
      var (d, e) := (DenoteItems(xs), DenoteItems(ys));
      assert d[0] == e[0] && d[1..] == DenoteItems(xs.tail) && e[1..] == DenoteItems(ys.tail);
      NormalUnique(xs.head, ys.head);
      NormalUniqueItems(xs.tail, ys.tail);
    }
  }

  lemma {:induction false} NormalUniqueMembers(m: Members, n: Members)
    requires NormalMembers(m) && NormalMembers(n) && DenoteMembers(m) == DenoteMembers(n)
    ensures m == n
    decreases m
  {
    if m.Member? {
      assert m.key in DenoteMembers(n);
      SameFirst(m, n);
      NormalUnique(m.value, n.value);
      NormalUniqueMembers(m.rest, n.rest);
    } else {
      OnlyEmptyIsEmpty(n);
    }
  }

  lemma OnlyEmptyIsEmpty(m: Members)
    ensures DenoteMembers(m) == map[] ==> m.NoMembers?
  {
    if m.Member? {
      assert m.key in DenoteMembers(m);
    }
  }

  lemma {:induction false} NormalDistinct(v: Json)
    requires Normal(v)
    ensures Distinct(v)
    decreases v
  {
    match v
    case Arr(xs) => NormalDistinctItems(xs);
    case Obj(m) => NormalDistinctMembers(m);
    case _ =>
  }

  lemma {:induction false} NormalDistinctItems(xs: Items)
    requires NormalItems(xs)
    ensures DistinctItems(xs)
    decreases xs
  {
    if xs.Item? {
      NormalDistinct(xs.head);
      NormalDistinctItems(xs.tail);
    }
  }

  lemma {:induction false} NormalDistinctMembers(m: Members)
    requires NormalMembers(m)
    ensures DistinctMembers(m)
    decreases m
  {
    if m.Member? {
      NormalDistinct(m.value);
      NormalDistinctMembers(m.rest);
      RestWithoutFirst(m);
    }
  }

  /** A value already in order is its own canonical form. */
  lemma NormalIsSorted(v: Json)
    requires Normal(v)
    ensures Sort(v) == v
  {
    NormalDistinct(v);
    SortNormal(v);
    SortDenotes(v);
    NormalUnique(Sort(v), v);
  }

  // ---- theorems --------------------------------------------------------------------

  lemma {:induction false} InsertValid(k: string, v: Json, m: Members)
    requires ValidMembers(m) && Valid(v)
    ensures ValidMembers(Insert(k, v, m))
  {
    if m.Member? {
      InsertValid(k, v, m.rest);
    }
  }

  lemma {:induction false} SortValid(v: Json)
    requires Valid(v)
    ensures Valid(Sort(v))
    decreases v
  {
    match v
    case Arr(xs) => SortValidItems(xs);
    case Obj(m) => SortValidMembers(m);
    case _ =>
  }

  lemma {:induction false} SortValidItems(xs: Items)
    requires ValidItems(xs)
    ensures ValidItems(SortItems(xs))
    decreases xs
  {
    if xs.Item? {
      SortValid(xs.head);
      SortValidItems(xs.tail);
    }
  }

  lemma {:induction false} SortValidMembers(m: Members)
    requires ValidMembers(m)
    ensures ValidMembers(SortMembers(m))
    decreases m
  {
    if m.Member? {
      SortValid(m.value);
      SortValidMembers(m.rest);
      InsertValid(m.key, Sort(m.value), SortMembers(m.rest));
    }
  }

  /** The canonical text parses back to the value, up to the order of object members. */
  lemma CanonicalReadsBack(v: Json)
    requires Valid(v) && Distinct(v)
    ensures Parse(CanonicalText(v)).Some?
    ensures Denote(Parse(CanonicalText(v)).value) == Denote(v)
  {
    SortValid(v);
    RoundTrip(Sort(v));
    SortDenotes(v);
  }

  /** Two values have the same canonical text exactly when they are the same value. */
  lemma CanonicalFaithful(a: Json, b: Json)
    requires Valid(a) && Distinct(a) && Valid(b) && Distinct(b)
    ensures CanonicalText(a) == CanonicalText(b) <==> Denote(a) == Denote(b)
  {
    CanonicalReadsBack(a);
    CanonicalReadsBack(b);
    if Denote(a) == Denote(b) {
      SortDenotes(a);
      SortDenotes(b);
      SortNormal(a);
      SortNormal(b);
      NormalUnique(Sort(a), Sort(b));
    }
  }

  // ---- writing into a shared buffer ------------------------------------------------------

  const MAX_CANONICAL_DEPTH: nat := 128

  /** How many levels below the value its deepest node lies. */
  function Height(v: Json): nat {
    match v
    case Arr(xs) => HeightItems(xs)
    case Obj(m) => HeightMembers(m)
    case _ => 0
  }

  function Max(a: nat, b: nat): nat { if a < b then b else a }

  function HeightItems(xs: Items): nat {
    match xs case NoItems => 0 case Item(x, tail) => Max(1 + Height(x), HeightItems(tail))
  }

  function HeightMembers(m: Members): nat {
    match m case NoMembers => 0 case Member(_, v, rest) => Max(1 + Height(v), HeightMembers(rest))
  }

  /** Some node lies `d` levels below the root. */
  predicate HasNodeAt(v: Json, d: nat)
    decreases v
  {
    d == 0 || (v.Arr? && ItemAt(v.items, d)) || (v.Obj? && MemberAt(v.members, d))
  }

  predicate ItemAt(xs: Items, d: nat)
    requires d > 0
    decreases xs
  {
    xs.Item? && (HasNodeAt(xs.head, d - 1) || ItemAt(xs.tail, d))
  }

  predicate MemberAt(m: Members, d: nat)
    requires d > 0
    decreases m
  {
    m.Member? && (HasNodeAt(m.value, d - 1) || MemberAt(m.rest, d))
  }

  /** The height of a value is how far below the root its lowest node lies. */
  lemma {:induction false} HeightIs(v: Json, d: nat)
    ensures HasNodeAt(v, d) <==> d <= Height(v)
    decreases v
  {
    match v
    case Arr(xs) => if d > 0 { HeightItemsIs(xs, d); }
    case Obj(m) => if d > 0 { HeightMembersIs(m, d); }
    case _ =>
  }

  lemma {:induction false} HeightItemsIs(xs: Items, d: nat)
    requires d > 0
    ensures ItemAt(xs, d) <==> d <= HeightItems(xs)
    decreases xs
  {
    hide HasNodeAt, Height;
    if xs.Item? {
      HeightIs(xs.head, d - 1);
      HeightItemsIs(xs.tail, d);
    }
  }

  lemma {:induction false} HeightMembersIs(m: Members, d: nat)
    requires d > 0
    ensures MemberAt(m, d) <==> d <= HeightMembers(m)
    decreases m
  {
    hide HasNodeAt, Height;
    if m.Member? {
      HeightIs(m.value, d - 1);
      HeightMembersIs(m.rest, d);
    }
  }

  /** Members in key order, their values as they are. */
  function ByKey(m: Members): Members {
    match m case NoMembers => NoMembers case Member(k, v, rest) => Insert(k, v, ByKey(rest))
  }

  /** Members in the order given, their values canonical. */
  function SortValues(m: Members): Members {
    match m case NoMembers => NoMembers case Member(k, v, rest) => Member(k, Sort(v), SortValues(rest))
  }

  lemma {:induction false} SortValuesInsert(k: string, v: Json, m: Members)
    ensures SortValues(Insert(k, v, m)) == Insert(k, Sort(v), SortValues(m))
  {
    if m.Member? {
      SortValuesInsert(k, v, m.rest);
    }
  }

  lemma {:induction false} SortIsByKey(m: Members)
    ensures SortMembers(m) == SortValues(ByKey(m))
  {
    if m.Member? {
      SortIsByKey(m.rest);
      SortValuesInsert(m.key, m.value, ByKey(m.rest));
    }
  }

  function Size(v: Json): nat {
    match v
    case Arr(xs) => 1 + SizeItems(xs)
    case Obj(m) => 1 + SizeMembers(m)
    case _ => 1
  }

  function SizeItems(xs: Items): nat {
    match xs case NoItems => 0 case Item(x, tail) => 1 + Size(x) + SizeItems(tail)
  }

  function SizeMembers(m: Members): nat {
    match m case NoMembers => 0 case Member(_, v, rest) => 1 + Size(v) + SizeMembers(rest)
  }

  lemma {:induction false} InsertMeasures(k: string, v: Json, m: Members)
    ensures SizeMembers(Insert(k, v, m)) == 1 + Size(v) + SizeMembers(m)
    ensures HeightMembers(Insert(k, v, m)) == Max(1 + Height(v), HeightMembers(m))
  {
    if m.Member? {
      InsertMeasures(k, v, m.rest);
    }
  }

  lemma {:induction false} ByKeyMeasures(m: Members)
    ensures SizeMembers(ByKey(m)) == SizeMembers(m) && HeightMembers(ByKey(m)) == HeightMembers(m)
  {
    if m.Member? {
      ByKeyMeasures(m.rest);
      InsertMeasures(m.key, m.value, ByKey(m.rest));
    }
  }

  class Buffer {
    var text: string

    constructor ()
      ensures text == ""
    {
      text := "";
    }

    method Push(s: string)
      modifies this
      ensures text == old(text) + s
    {
      text := text + s;
    }
  }

  /** Appends the canonical text of `v`, unless some node lies deeper than the limit allows. */
  method WriteCanonical(v: Json, out: Buffer, depth: nat) returns (ok: bool)
    modifies out
    ensures ok <==> depth + Height(v) <= MAX_CANONICAL_DEPTH
    ensures ok ==> out.text == old(out.text) + CanonicalText(v)
    decreases Size(v), 2
  {
    if depth > MAX_CANONICAL_DEPTH {
      return false;
    }
    match v
    case Obj(m) => ok := WriteObject(m, out, depth);
    case Arr(xs) => ok := WriteArray(xs, out, depth);
    case _ =>
      out.Push(Render(v));
      ok := true;
  }

  method WriteObject(m: Members, out: Buffer, depth: nat) returns (ok: bool)
    requires depth <= MAX_CANONICAL_DEPTH
    modifies out
    ensures ok <==> depth + HeightMembers(m) <= MAX_CANONICAL_DEPTH
    ensures ok ==> out.text == old(out.text) + CanonicalText(Obj(m))
    decreases 1 + SizeMembers(m), 1
  {
    SortIsByKey(m);
    ByKeyMeasures(m);
    hide Insert, Quote, Render;
    ghost var start := out.text;
    ghost var all := RenderMembers(SortValues(ByKey(m)), true);
    var rest, first := ByKey(m), true;
    out.Push("{");
    while rest.Member?
      invariant out.text + RenderMembers(SortValues(rest), first) == start + "{" + all
      invariant SizeMembers(rest) <= SizeMembers(m)
      invariant depth + HeightMembers(rest) <= MAX_CANONICAL_DEPTH <==> depth + HeightMembers(m) <= MAX_CANONICAL_DEPTH
      decreases rest
    {
      var written := WriteMember(rest.key, rest.value, first, out, depth);
      if !written {
        return false;
      }
      rest, first := rest.rest, false;
    }
    out.Push("}");
    ok := true;
    RendersObject(start, m);
  }

  lemma RendersObject(start: string, m: Members)
    ensures start + "{" + RenderMembers(SortMembers(m), true) + "}" == start + CanonicalText(Obj(m))
  {
    hide RenderMembers, SortMembers;
    Wrap(start, "{", RenderMembers(SortMembers(m), true), "}");
  }

  function MemberText(key: string, value: Json, first: bool, more: string): string {
    (if first then "" else ",") + Quote(key) + ":" + Render(Sort(value)) + more
  }

  method WriteMember(key: string, value: Json, first: bool, out: Buffer, depth: nat) returns (ok: bool)
    requires depth <= MAX_CANONICAL_DEPTH
    modifies out
    ensures ok <==> depth + 1 + Height(value) <= MAX_CANONICAL_DEPTH
    ensures ok ==> forall more :: out.text + more == old(out.text) + MemberText(key, value, first, more)
    decreases Size(value), 3
  {
    hide Quote, Render, Sort;
    if !first {
      out.Push(",");
    }
    out.Push(Quote(key));
    out.Push(":");
    ok := WriteCanonical(value, out, depth + 1);
  }

  method WriteArray(xs: Items, out: Buffer, depth: nat) returns (ok: bool)
    requires depth <= MAX_CANONICAL_DEPTH
    modifies out
    ensures ok <==> depth + HeightItems(xs) <= MAX_CANONICAL_DEPTH
    ensures ok ==> out.text == old(out.text) + CanonicalText(Arr(xs))
    decreases 1 + SizeItems(xs), 1
  {
    hide Render;
    ghost var start := out.text;
    ghost var all := RenderItems(SortItems(xs), true);
    var rest, first := xs, true;
    out.Push("[");
    while rest.Item?
      invariant out.text + RenderItems(SortItems(rest), first) == start + "[" + all
      invariant SizeItems(rest) <= SizeItems(xs)
      invariant depth + HeightItems(rest) <= MAX_CANONICAL_DEPTH <==> depth + HeightItems(xs) <= MAX_CANONICAL_DEPTH
      decreases rest
    {
      var written := WriteItem(rest.head, first, out, depth);
      if !written {
        return false;
      }
      rest, first := rest.tail, false;
    }
    out.Push("]");
    ok := true;
    RendersArray(start, xs);
  }

  lemma RendersArray(start: string, xs: Items)
    ensures start + "[" + RenderItems(SortItems(xs), true) + "]" == start + CanonicalText(Arr(xs))
  {
    hide RenderItems, SortItems;
    Wrap(start, "[", RenderItems(SortItems(xs), true), "]");
  }

  function ItemText(item: Json, first: bool, more: string): string {
    (if first then "" else ",") + Render(Sort(item)) + more
  }

  method WriteItem(item: Json, first: bool, out: Buffer, depth: nat) returns (ok: bool)
    requires depth <= MAX_CANONICAL_DEPTH
    modifies out
    ensures ok <==> depth + 1 + Height(item) <= MAX_CANONICAL_DEPTH
    ensures ok ==> forall more :: out.text + more == old(out.text) + ItemText(item, first, more)
    decreases Size(item), 3
  {
    hide Render, Sort;
    if !first {
      out.Push(",");
    }
    ok := WriteCanonical(item, out, depth + 1);
  }

  /** Succeeds exactly when no node lies more than 128 levels below the root. */
  method CanonicalJson(v: Json) returns (r: Option<string>)
    ensures r == if Height(v) <= 128 then Some(CanonicalText(v)) else None
  {
    var out := new Buffer();
    var ok := WriteCanonical(v, out, 0);
    assert "" + CanonicalText(v) == CanonicalText(v);
    r := if ok then Some(out.text) else None;
  }
}
