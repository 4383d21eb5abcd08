/** JSON values as written text: compact rendering and a parser that undoes it. */
module Json {
  import opened Text

  /** A value as written, with object members in some order. Numbers are their printed tokens. */
  datatype Json =
    | Null | Bool(flag: bool) | Num(token: string) | Str(text: string)
    | Arr(items: Items) | Obj(members: Members)
  datatype Items = NoItems | Item(head: Json, tail: Items)
  datatype Members = NoMembers | Member(key: string, value: Json, rest: Members)

  predicate NumChar(c: char) {
    '0' <= c <= '9' || c == '-' || c == '+' || c == '.' || c == 'e' || c == 'E'
  }

  /** Number tokens are non-empty runs of number characters that open like a number. */
  predicate ValidNum(t: string) {
    |t| > 0 && ('0' <= t[0] <= '9' || t[0] == '-') && forall i :: 0 <= i < |t| ==> NumChar(t[i])
  }

  predicate Valid(v: Json) {
    match v
    case Num(t) => ValidNum(t)
    case Arr(xs) => ValidItems(xs)
    case Obj(m) => ValidMembers(m)
    case _ => true
  }

  predicate ValidItems(xs: Items) {
    xs.Item? ==> Valid(xs.head) && ValidItems(xs.tail)
  }

  predicate ValidMembers(m: Members) {
    m.Member? ==> Valid(m.value) && ValidMembers(m.rest)
  }

  // ---- strings ---------------------------------------------------------------

  const HEX: string := "0123456789abcdef"

  function Escape(c: char): string {
    if c == '\"' then "\\\""
    else if c == '\\' then "\\\\"
    else if c == '\n' then "\\n"
    else if c == '\r' then "\\r"
    else if c == '\t' then "\\t"
    else if c as int == 8 then "\\b"
    else if c as int == 12 then "\\f"
    else if c as int < 32 then "\\u00" + [HEX[c as int / 16], HEX[c as int % 16]]
    else [c]
  }

  function EscapeAll(s: string): string {
    if s == [] then [] else Escape(s[0]) + EscapeAll(s[1..])
  }

  function Quote(s: string): string {
    "\"" + EscapeAll(s) + "\""
  }

  // ---- what is written for each character ---------------------------------------

  function HexDigit(n: int): char
    requires 0 <= n < 16
  {
    if n < 10 then ('0' as int + n) as char else ('a' as int + n - 10) as char
  }

  /** What serde_json writes for a character inside a string, letter for letter. */
  ghost predicate WrittenAs(c: char, e: string) {
    && (c == '\"' ==> e == ['\\', '\"'])
    && (c == '\\' ==> e == ['\\', '\\'])
    && (c == '\n' ==> e == ['\\', 'n'])
    && (c == '\r' ==> e == ['\\', 'r'])
    && (c == '\t' ==> e == ['\\', 't'])
    && (c as int == 8 ==> e == ['\\', 'b'])
    && (c as int == 12 ==> e == ['\\', 'f'])
    && (c as int < 32 && !ShortEscape(c) ==>
          e == ['\\', 'u', '0', '0', HexDigit(c as int / 16), HexDigit(c as int % 16)])
    && (c as int >= 32 && !ShortEscape(c) ==> e == [c])
  }

  predicate ShortEscape(c: char) {
    c in {'\"', '\\', '\n', '\r', '\t', 8 as char, 12 as char}
  }

  lemma EscapeIsExact(c: char)
    ensures WrittenAs(c, Escape(c))
  {
    if c as int < 32 {
      LowHex(c as int / 16);
      LowHex(c as int % 16);
    }
  }

  lemma LowHex(n: int)
    requires 0 <= n < 16
    ensures HEX[n] == HexDigit(n)
  {
  }

  function Concat(parts: seq<string>): string {
    if parts == [] then "" else parts[0] + Concat(parts[1..])
  }

  lemma WrittenOneWay(c: char, e: string, f: string)
    requires WrittenAs(c, e) && WrittenAs(c, f)
    ensures e == f
  {
  }

  /** A string is written as quotation marks around what is written for each of its characters, in
      order. */
  lemma {:induction false} StringText(s: string, parts: seq<string>)
    requires |parts| == |s| && forall i :: 0 <= i < |s| ==> WrittenAs(s[i], parts[i])
    ensures Quote(s) == "\"" + Concat(parts) + "\""
    ensures EscapeAll(s) == Concat(parts)
  {
    hide Escape, WrittenAs;
    if s != [] {
      StringText(s[1..], parts[1..]);
      EscapeIsExact(s[0]);
      WrittenOneWay(s[0], Escape(s[0]), parts[0]);
    }
  }

  // ---- rendering ---------------------------------------------------------------

  function Render(v: Json): string {
    match v
    case Null => "null"
    case Bool(b) => if b then "true" else "false"
    case Num(t) => t
    case Str(s) => Quote(s)
    case Arr(xs) => "[" + RenderItems(xs, true) + "]"
    case Obj(m) => "{" + RenderMembers(m, true) + "}"
  }

  function RenderItems(xs: Items, first: bool): string {
    match xs
    case NoItems => ""
    case Item(x, tail) => (if first then "" else ",") + Render(x) + RenderItems(tail, false)
  }

  function RenderMembers(m: Members, first: bool): string {
    match m
    case NoMembers => ""
    case Member(k, v, rest) => (if first then "" else ",") + Quote(k) + ":" + Render(v) + RenderMembers(rest, false)
  }

  // ---- parsing -----------------------------------------------------------------

  datatype Parsed<T> = Fail | Got(value: T, rest: string)

  function HexValue(c: char): int {
    if '0' <= c <= '9' then c as int - '0' as int
    else if 'a' <= c <= 'f' then c as int - 'a' as int + 10
    else -1
  }

  /** The character after a backslash, decoded. */
  function ParseEscape(s: string): (r: Parsed<char>)
    ensures r.Got? ==> |r.rest| < |s|
  {
    if s == [] then Fail
    else if s[0] == '\"' then Got('\"', s[1..])
    else if s[0] == '\\' then Got('\\', s[1..])
    else if s[0] == 'n' then Got('\n', s[1..])
    else if s[0] == 'r' then Got('\r', s[1..])
    else if s[0] == 't' then Got('\t', s[1..])
    else if s[0] == 'b' then Got(8 as char, s[1..])
    else if s[0] == 'f' then Got(12 as char, s[1..])
    else if |s| >= 5 && s[..3] == "u00" && 0 <= HexValue(s[3]) < 8 && 0 <= HexValue(s[4])
    then Got((HexValue(s[3]) * 16 + HexValue(s[4])) as char, s[5..])
    else Fail
  }

  /** Characters up to and including the closing quote. */
  function ParseChars(s: string): (r: Parsed<string>)
    ensures r.Got? ==> |r.rest| < |s|
    decreases |s|
  {
    if s == [] then Fail
    else if s[0] == '\"' then Got("", s[1..])
    else
      var c := if s[0] == '\\' then ParseEscape(s[1..]) else Got(s[0], s[1..]);
      if c.Fail? then Fail
      else
        var more := ParseChars(c.rest);
        if more.Fail? then Fail else Got([c.value] + more.value, more.rest)
  }

  /** The longest run of number characters. */
  function NumRun(s: string): nat
    ensures NumRun(s) <= |s|
  {
    if s == [] || !NumChar(s[0]) then 0 else 1 + NumRun(s[1..])
  }

  function ParseValue(s: string): (r: Parsed<Json>)
    ensures r.Got? ==> |r.rest| < |s|
    decreases |s|, 0
  {
    if s == [] then Fail
    else if "null" <= s then Got(Null, s[4..])
    else if "true" <= s then Got(Bool(true), s[4..])
    else if "false" <= s then Got(Bool(false), s[5..])
    else if s[0] == '\"' then
      var t := ParseChars(s[1..]);
      if t.Fail? then Fail else Got(Str(t.value), t.rest)
    else if s[0] == '[' then
      var xs := ParseItems(s[1..], true);
      if xs.Fail? then Fail else Got(Arr(xs.value), xs.rest)
    else if s[0] == '{' then
      var m := ParseMembers(s[1..], true);
      if m.Fail? then Fail else Got(Obj(m.value), m.rest)
    else if '0' <= s[0] <= '9' || s[0] == '-' then Got(Num(s[..NumRun(s)]), s[NumRun(s)..])
    else Fail
  }

  function ParseItems(s: string, first: bool): (r: Parsed<Items>)
    ensures r.Got? ==> |r.rest| < |s|
    decreases |s|, 1
  {
    if s == [] then Fail
    else if s[0] == ']' then Got(NoItems, s[1..])
    else if !first && s[0] != ',' then Fail
    else
      var x := ParseValue(if first then s else s[1..]);
      if x.Fail? then Fail
      else
        var more := ParseItems(x.rest, false);
        if more.Fail? then Fail else Got(Item(x.value, more.value), more.rest)
  }

  function ParseMembers(s: string, first: bool): (r: Parsed<Members>)
    ensures r.Got? ==> |r.rest| < |s|
    decreases |s|, 1
  {
    if s == [] then Fail
    else if s[0] == '}' then Got(NoMembers, s[1..])
    else if !first && s[0] != ',' then Fail
    else
      var t := if first then s else s[1..];
      if t == [] || t[0] != '\"' then Fail
      else
        var k := ParseChars(t[1..]);
        if k.Fail? || k.rest == [] || k.rest[0] != ':' then Fail
        else
          var v := ParseValue(k.rest[1..]);
          if v.Fail? then Fail
          else
            var more := ParseMembers(v.rest, false);
            if more.Fail? then Fail else Got(Member(k.value, v.value, more.value), more.rest)
  }

  /** A complete text. */
  function Parse(s: string): Option<Json> {
    var v := ParseValue(s);
    if v.Got? && v.rest == [] then Some(v.value) else None
  }

  // ---- the round trip ------------------------------------------------------------

  lemma HexRoundTrip(n: int)
    requires 0 <= n < 16
    ensures HexValue(HEX[n]) == n
  {
  }

  lemma EscapedChar(c: char, t: string)
    ensures var s := Escape(c) + t;
            && s != [] && s[0] != '\"'
            && (if s[0] == '\\' then ParseEscape(s[1..]) == Got(c, t) else Escape(c) == [c])
  {
    var s := Escape(c) + t;
    if s[0] == '\\' {
      assert s[1..] == Escape(c)[1..] + t;
      var e := s[1..];
      if c as int < 32 && |Escape(c)| == 6 {
        HexRoundTrip(c as int / 16);
        HexRoundTrip(c as int % 16);
        assert e[..3] == "u00";
        assert e[5..] == t;
      } else {
        assert e[1..] == t;
      }
    }
  }

  lemma {:induction false} ParsesChars(s: string, t: string)
    ensures ParseChars(EscapeAll(s) + "\"" + t) == Got(s, t)
  {
    if s == [] {
      assert EscapeAll(s) + "\"" + t == "\"" + t;
      assert ("\"" + t)[1..] == t;
    } else {
      var more := EscapeAll(s[1..]) + "\"" + t;
      assert EscapeAll(s) + "\"" + t == Escape(s[0]) + more;
      EscapedChar(s[0], more);
      ParsesChars(s[1..], t);
      var u := Escape(s[0]) + more;
      if u[0] != '\\' {
        assert u[1..] == more;
      }
      assert [s[0]] + s[1..] == s;
    }
  }

  /** What may follow a value: nothing that would prolong a number. */
  predicate Delimits(t: string) { t == [] || !NumChar(t[0]) }

  lemma {:induction false} NumRunStops(n: string, t: string)
    requires (forall i :: 0 <= i < |n| ==> NumChar(n[i])) && Delimits(t)
    ensures NumRun(n + t) == |n|
  {
    if n == [] {
      assert n + t == t;
    } else {
      assert (n + t)[1..] == n[1..] + t;
      NumRunStops(n[1..], t);
    }
  }

  lemma ParsesNumber(n: string, t: string)
    requires ValidNum(n) && Delimits(t)
    ensures ParseValue(n + t) == Got(Num(n), t)
  {
    hide ParseChars, ParseItems, ParseMembers;
    NumRunStops(n, t);
    var s := n + t;
    assert s[0] == n[0];
    NoWord(s);
    assert s[..|n|] == n && s[|n|..] == t;
  }

  // One step of the parser at a time.

  lemma NoWord(s: string)
    requires s != [] && s[0] != 'n' && s[0] != 't' && s[0] != 'f'
    ensures !("null" <= s) && !("true" <= s) && !("false" <= s)
  {
    NotPrefix("null", s);
    NotPrefix("true", s);
    NotPrefix("false", s);
  }

  lemma NotPrefix(w: string, s: string)
    requires w != [] && s != [] && w[0] != s[0]
    ensures !(w <= s)
  {
  }

  lemma OpensString(r: string, x: string, t: string)
    requires ParseChars(r) == Got(x, t)
    ensures ParseValue("\"" + r) == Got(Str(x), t)
  {
    hide ParseChars, ParseItems, ParseMembers, NumRun;
    var s := "\"" + r;
    assert s[0] == '\"' && s[1..] == r;
    NoWord(s);
  }

  lemma OpensArray(r: string, xs: Items, t: string)
    requires ParseItems(r, true) == Got(xs, t)
    ensures ParseValue("[" + r) == Got(Arr(xs), t)
  {
    hide ParseChars, ParseItems, ParseMembers, NumRun;
    var s := "[" + r;
    assert s[0] == '[' && s[1..] == r;
    NoWord(s);
  }

  lemma OpensObject(r: string, m: Members, t: string)
    requires ParseMembers(r, true) == Got(m, t)
    ensures ParseValue("{" + r) == Got(Obj(m), t)
  {
    hide ParseChars, ParseItems, ParseMembers, NumRun;
    var s := "{" + r;
    assert s[0] == '{' && s[1..] == r;
    NoWord(s);
  }

  lemma TakesItem(first: bool, u: string, x: Json, more: string, tail: Items, t: string)
    requires u != [] && u[0] != ']'
    requires ParseValue(u) == Got(x, more) && ParseItems(more, false) == Got(tail, t)
    ensures ParseItems((if first then "" else ",") + u, first) == Got(Item(x, tail), t)
  {
    hide ParseValue;
    var s := (if first then "" else ",") + u;
    assert (if first then s else s[1..]) == u;
  }

  lemma TakesMember(first: bool, q: string, k: string, u: string, v: Json, more: string, rest: Members, t: string)
    requires ParseChars(q) == Got(k, ":" + u)
    requires ParseValue(u) == Got(v, more) && ParseMembers(more, false) == Got(rest, t)
    ensures ParseMembers((if first then "" else ",") + "\"" + q, first) == Got(Member(k, v, rest), t)
  {
    hide ParseValue, ParseChars;
    var s := (if first then "" else ",") + "\"" + q;
    var w := if first then s else s[1..];
    assert w == "\"" + q && w[1..] == q;
    assert (":" + u)[1..] == u;
  }

  lemma ParsesWord(v: Json, t: string)
    requires v.Null? || v.Bool?
    ensures ParseValue(Render(v) + t) == Got(v, t)
  {
    var s := Render(v) + t;
    assert s[if v == Bool(false) then 5 else 4..] == t;
  }

  lemma Wrap(a: string, b: string, c: string, t: string)
    ensures a + b + c + t == a + (b + c + t)
  {
  }

  lemma Regroup(a: string, e: string, r: string, m: string, t: string)
    ensures a + ("\"" + e + "\"") + ":" + r + m + "}" + t == a + "\"" + (e + "\"" + (":" + (r + (m + "}" + t))))
  {
  }

  lemma Comma(a: string, r: string, m: string, t: string)
    ensures a + r + m + "]" + t == a + (r + (m + "]" + t))
  {
  }

  lemma {:induction false} ParsesValue(v: Json, t: string)
    requires Valid(v) && Delimits(t)
    ensures ParseValue(Render(v) + t) == Got(v, t)
    decreases v
  {
    hide ParseValue, ParseItems, ParseMembers, ParseChars, ValidNum;
    match v
    case Null => ParsesWord(v, t);
    case Bool(_) => ParsesWord(v, t);
    case Num(n) => ParsesNumber(n, t);
    case Str(x) =>
      Wrap("\"", EscapeAll(x), "\"", t);
      ParsesChars(x, t);
      OpensString(EscapeAll(x) + "\"" + t, x, t);
    case Arr(xs) =>
      Wrap("[", RenderItems(xs, true), "]", t);
      ParsesItems(xs, true, t);
      OpensArray(RenderItems(xs, true) + "]" + t, xs, t);
    case Obj(m) =>
      Wrap("{", RenderMembers(m, true), "}", t);
      ParsesMembers(m, true, t);
      OpensObject(RenderMembers(m, true) + "}" + t, m, t);
  }

  lemma RenderOpens(v: Json)
    requires Valid(v)
    ensures Render(v) != [] && Render(v)[0] != ']'
  {
  }

  lemma {:induction false} ParsesItems(xs: Items, first: bool, t: string)
    requires ValidItems(xs)
    ensures ParseItems(RenderItems(xs, first) + "]" + t, first) == Got(xs, t)
    decreases xs
  {
    match xs
    case NoItems =>
      assert RenderItems(xs, first) + "]" + t == "]" + t;
      assert ("]" + t)[1..] == t;
    case Item(x, tail) =>
      hide ParseValue, ParseItems, Valid;
      var more := RenderItems(tail, false) + "]" + t;
      RenderOpens(x);
      Comma(if first then "" else ",", Render(x), RenderItems(tail, false), t);
      assert Delimits(more);
      ParsesValue(x, more);
      ParsesItems(tail, false, t);
      TakesItem(first, Render(x) + more, x, more, tail, t);
  }

  lemma {:induction false} ParsesMembers(m: Members, first: bool, t: string)
    requires ValidMembers(m)
    ensures ParseMembers(RenderMembers(m, first) + "}" + t, first) == Got(m, t)
    decreases m
  {
    match m
    case NoMembers =>
      assert RenderMembers(m, first) + "}" + t == "}" + t;
      assert ("}" + t)[1..] == t;
    case Member(k, v, rest) =>
      hide ParseValue, ParseMembers, ParseChars, Valid, EscapeAll;
      var more := RenderMembers(rest, false) + "}" + t;
      var u := Render(v) + more;
      var q := EscapeAll(k) + "\"" + (":" + u);
      Regroup(if first then "" else ",", EscapeAll(k), Render(v), RenderMembers(rest, false), t);
      assert Delimits(more);
      ParsesChars(k, ":" + u);
      ParsesValue(v, more);
      ParsesMembers(rest, false, t);
      TakesMember(first, q, k, u, v, more, rest, t);
  }

  /** Parsing what was rendered gives back the value. */
  lemma RoundTrip(v: Json)
    requires Valid(v)
    ensures Parse(Render(v)) == Some(v)
  {
    ParsesValue(v, "");
    assert Render(v) + "" == Render(v);
  }

  /** So different values never render alike. */
  lemma RenderInjective(a: Json, b: Json)
    requires Valid(a) && Valid(b) && Render(a) == Render(b)
    ensures a == b
  {
    RoundTrip(a);
    RoundTrip(b);
  }

  // ---- unsigned numbers -------------------------------------------------------------

  function Digit(n: nat): char
    requires n < 10
  {
    ('0' as int + n) as char
  }

  function Decimal(n: nat): string {
    if n < 10 then [Digit(n)] else Decimal(n / 10) + [Digit(n % 10)]
  }

  function ReadDecimal(s: string): nat
    requires forall i :: 0 <= i < |s| ==> '0' <= s[i] <= '9'
  {
    if s == [] then 0 else ReadDecimal(s[..|s| - 1]) * 10 + (s[|s| - 1] as int - '0' as int)
  }

  lemma {:induction false} DecimalReads(n: nat)
    ensures |Decimal(n)| > 0
    ensures forall i :: 0 <= i < |Decimal(n)| ==> '0' <= Decimal(n)[i] <= '9'
    ensures ReadDecimal(Decimal(n)) == n
  {
    if n < 10 {
      assert Decimal(n)[..0] == [];
    } else {
      DecimalReads(n / 10);
      assert Decimal(n)[..|Decimal(n)| - 1] == Decimal(n / 10);
    }
  }

  function Number(n: nat): Json { Num(Decimal(n)) }

  lemma NumberValid(n: nat)
    ensures Valid(Number(n))
  {
    DecimalReads(n);
  }

  lemma NumberInjective(m: nat, n: nat)
    requires Number(m) == Number(n)
    ensures m == n
  {
    DecimalReads(m);
    DecimalReads(n);
  }

  // ---- rendering, letter for letter ------------------------------------------------

  function Commas(parts: seq<string>): string {
    if parts == [] then "" else if |parts| == 1 then parts[0] else parts[0] + "," + Commas(parts[1..])
  }

  function MemberTexts(m: Members): seq<string> {
    match m case NoMembers => [] case Member(k, v, rest) => [Quote(k) + ":" + Render(v)] + MemberTexts(rest)
  }

  lemma CommasPush(t: string, ts: seq<string>)
    ensures Commas([t] + ts) == t + if ts == [] then "" else "," + Commas(ts)
  {
    assert ([t] + ts)[1..] == ts;
  }

  lemma Grouped(a: string, q: string, c: string, r: string, m: string)
    ensures a + q + c + r + m == a + ((q + c + r) + m)
  {
  }

  lemma MemberStep(m: Members, first: bool)
    requires m.Member?
    ensures RenderMembers(m, first)
         == (if first then "" else ",") + ((Quote(m.key) + ":" + Render(m.value)) + RenderMembers(m.rest, false))
  {
    hide Quote, Render;
    Grouped(if first then "" else ",", Quote(m.key), ":", Render(m.value), RenderMembers(m.rest, false));
  }

  lemma {:induction false} MembersText(m: Members)
    ensures RenderMembers(m, true) == Commas(MemberTexts(m))
    ensures RenderMembers(m, false) == if m.Member? then "," + Commas(MemberTexts(m)) else ""
    ensures m.Member? <==> MemberTexts(m) != []
  {
    if m.Member? {
      hide Quote, Render, Commas, RenderMembers;
      MembersText(m.rest);
      MemberStep(m, true);
      MemberStep(m, false);
      CommasPush(Quote(m.key) + ":" + Render(m.value), MemberTexts(m.rest));
    }
  }

  /** An object is its members between braces, each key and value joined by a colon, with commas
      between them and no space anywhere. */
  lemma ObjectText(m: Members)
    ensures Render(Obj(m)) == "{" + Commas(MemberTexts(m)) + "}"
  {
    MembersText(m);
    hide RenderMembers, Commas, MemberTexts;
  }
}
