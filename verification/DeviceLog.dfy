/** Commit comments that carry a request id, and the log parser that reads them back. */
module DeviceLog {
  import opened Text

  const REQUEST: string := "request.id="
  const DEVICE: string := "Device:"
  const COMMIT: string := "commit "

  // ---- text -------------------------------------------------------------------------

  predicate IsSpace(c: char) {
    c == ' ' || 9 <= c as int <= 13
  }

  predicate Occurs(s: string, pat: string, i: nat) {
    i + |pat| <= |s| && forall j :: 0 <= j < |pat| ==> s[i + j] == pat[j]
  }

  ghost predicate Contains(s: string, pat: string) {
    exists i: nat :: Occurs(s, pat, i)
  }

  ghost predicate FirstAt(s: string, pat: string, r: Option<nat>) {
    && (r.Some? ==> Occurs(s, pat, r.value) && forall i: nat :: i < r.value ==> !Occurs(s, pat, i))
    && (r.None? ==> forall i: nat :: !Occurs(s, pat, i))
  }

  /** The first occurrence, if any. */
  function Find(s: string, pat: string): (r: Option<nat>)
    ensures FirstAt(s, pat, r)
    decreases |s|
  {
    if pat <= s then
      assert FirstAt(s, pat, Some(0)) by { StartsWith(s, pat); }
      Some(0)
    else if s == [] then None
    else
      var r := Find(s[1..], pat);
      FirstAfter(s, pat, r);
      if r.Some? then Some(r.value + 1) else None
  }

  lemma StartsWith(s: string, pat: string)
    ensures pat <= s <==> Occurs(s, pat, 0)
  {
  }

  lemma OccursAfter(s: string, pat: string, i: nat)
    requires s != [] && i > 0
    ensures Occurs(s, pat, i) <==> Occurs(s[1..], pat, i - 1)
  {
    if Occurs(s[1..], pat, i - 1) {
      forall j | 0 <= j < |pat| ensures s[i + j] == pat[j] {
        assert s[1..][i - 1 + j] == pat[j];
      }
    }
  }

  lemma FirstAfter(s: string, pat: string, r: Option<nat>)
    requires s != [] && !(pat <= s) && FirstAt(s[1..], pat, r)
    ensures FirstAt(s, pat, if r.Some? then Some(r.value + 1) else None)
  {
    StartsWith(s, pat);
    forall i: nat | i > 0 ensures Occurs(s, pat, i) <==> Occurs(s[1..], pat, i - 1) {
      OccursAfter(s, pat, i);
    }
    hide Occurs;
    if r.Some? {
      assert Occurs(s, pat, r.value + 1) <==> Occurs(s[1..], pat, r.value);
    }
  }

  /** What lies between the first occurrence of `pat` and the next, or the end. */
  function Second(s: string, pat: string): string
    requires Find(s, pat).Some?
  {
    var rest := s[Find(s, pat).value + |pat|..];
    var next := Find(rest, pat);
    if next.Some? then rest[..next.value] else rest
  }

  function TrimStart(s: string): string {
    if s != [] && IsSpace(s[0]) then TrimStart(s[1..]) else s
  }

  function TrimEnd(s: string): string {
    if s != [] && IsSpace(s[|s| - 1]) then TrimEnd(s[..|s| - 1]) else s
  }

  function Trim(s: string): string { TrimEnd(TrimStart(s)) }

  /** Up to the first character that satisfies `stop`. */
  function Until(s: string, stop: char -> bool): string {
    if s == [] || stop(s[0]) then [] else [s[0]] + Until(s[1..], stop)
  }

  /** The request id in a piece of text: up to a comma, its first word. */
  function IdIn(s: string): string {
    Until(TrimStart(Until(s, c => c == ',')), IsSpace)
  }

  // ---- the parser -----------------------------------------------------------------------

  datatype Ref = Ref(device: string, commit: string, requestId: string)

  datatype State = State(commit: Option<string>, device: Option<string>, refs: seq<Ref>)

  const START := State(None, None, [])

  function TakeCommit(st: State, line: string): State {
    if COMMIT <= line then st.(commit := Some(Trim(line[|COMMIT|..])), device := None) else st
  }

  function TakeDevice(st: State, line: string): State {
    if Find(line, DEVICE).Some? then st.(device := Some(Trim(Second(line, DEVICE)))) else st
  }

  function TakeRequest(st: State, line: string): State {
    if Find(line, REQUEST).Some? && st.commit.Some? && st.device.Some? && IdIn(Second(line, REQUEST)) != ""
    then st.(refs := st.refs + [Ref(st.device.value, st.commit.value, IdIn(Second(line, REQUEST)))])
    else st
  }

  function TakeLine(st: State, line: string): State {
    TakeRequest(TakeDevice(TakeCommit(st, line), line), line)
  }

  function TakeAll(st: State, lines: seq<string>): State
    decreases |lines|
  {
    if lines == [] then st else TakeAll(TakeLine(st, lines[0]), lines[1..])
  }

  lemma {:induction false} TakeAllSplit(st: State, a: seq<string>, b: seq<string>)
    ensures TakeAll(st, a + b) == TakeAll(TakeAll(st, a), b)
    decreases |a|
  {
    hide TakeLine;
    if a == [] {
      assert a + b == b;
    } else {
      assert (a + b)[1..] == a[1..] + b;
      TakeAllSplit(TakeLine(st, a[0]), a[1..], b);
    }
  }

  /** The line loop, with the current commit and device as variables. */
  method ParseDeviceLog(lines: seq<string>) returns (refs: seq<Ref>)
    ensures refs == TakeAll(START, lines).refs == RefsIn(lines)
  {
    hide Find, Second, Trim, IdIn, RefsIn;
    ParserLooksBack(lines);
    refs := [];
    var commit: Option<string>, device: Option<string> := None, None;
    for n := 0 to |lines|
      invariant State(commit, device, refs) == TakeAll(START, lines[..n])
    {
      var line := lines[n];
      ghost var before := State(commit, device, refs);
      if COMMIT <= line {
        commit, device := Some(Trim(line[|COMMIT|..])), None;
      }
      if Find(line, DEVICE).Some? {
        device := Some(Trim(Second(line, DEVICE)));
      }
      if Find(line, REQUEST).Some? && commit.Some? && device.Some? {
        var id := IdIn(Second(line, REQUEST));
        if id != "" {
          refs := refs + [Ref(device.value, commit.value, id)];
        }
      }
      assert State(commit, device, refs) == TakeLine(before, line);
      hide TakeLine;
      TakeAllSplit(START, lines[..n], [line]);
      assert lines[..n + 1] == lines[..n] + [line];
    }
    assert lines[..|lines|] == lines;
  }

  // ---- what the parser finds, looking back from each line ---------------------------------

  predicate IsCommit(line: string) { |line| >= 7 && line[..7] == "commit " }

  /** The last commit line, if any. */
  function LastCommit(lines: seq<string>): (c: Option<nat>)
    ensures c.Some? ==> c.value < |lines| && IsCommit(lines[c.value])
    ensures c.Some? ==> forall i :: c.value < i < |lines| ==> !IsCommit(lines[i])
    ensures c.None? ==> forall i :: 0 <= i < |lines| ==> !IsCommit(lines[i])
  {
    if lines == [] then None
    else if IsCommit(lines[|lines| - 1]) then Some(|lines| - 1)
    else LastCommit(lines[..|lines| - 1])
  }

  predicate NamesDevice(line: string) { Find(line, "Device:").Some? }

  /** The last line that names a device, with no commit line after it. */
  function LastDevice(lines: seq<string>): (d: Option<nat>)
    ensures d.Some? ==> d.value < |lines| && NamesDevice(lines[d.value])
    ensures d.Some? ==> forall i :: d.value < i < |lines| ==> !NamesDevice(lines[i]) && !IsCommit(lines[i])
  {
    if lines == [] then None
    else if NamesDevice(lines[|lines| - 1]) then Some(|lines| - 1)
    else if IsCommit(lines[|lines| - 1]) then None
    else LastDevice(lines[..|lines| - 1])
  }

  /** What the last line contributes: nothing, unless it names a request, a commit came at or before it,
      and a device was named since. */
  function RefAtEnd(lines: seq<string>): seq<Ref>
    requires lines != []
  {
    var line := lines[|lines| - 1];
    var (c, d) := (LastCommit(lines), LastDevice(lines));
    if c.None? || d.None? || Find(line, "request.id=").None? then []
    else
      var id := IdIn(Second(line, "request.id="));
      if id == "" then [] else [Ref(Trim(Second(lines[d.value], "Device:")), Trim(lines[c.value][7..]), id)]
  }

  function RefsIn(lines: seq<string>): seq<Ref> {
    if lines == [] then [] else RefsIn(lines[..|lines| - 1]) + RefAtEnd(lines)
  }

  /** The two variables always hold what looking back would find, so the parser returns, line by line,
      what each line contributes. */
  lemma {:induction false} ParserLooksBack(lines: seq<string>)
    ensures var st := TakeAll(START, lines);
            var (c, d) := (LastCommit(lines), LastDevice(lines));
            && st.commit == (if c.None? then None else Some(Trim(lines[c.value][7..])))
            && st.device == (if d.None? then None else Some(Trim(Second(lines[d.value], "Device:"))))
            && st.refs == RefsIn(lines)
    decreases |lines|
  {
    hide Find, Second, Trim, IdIn;
    if lines != [] {
      var n := |lines| - 1;
      ParserLooksBack(lines[..n]);
      assert lines == lines[..n] + [lines[n]];
      TakeAllSplit(START, lines[..n], [lines[n]]);
      assert TakeAll(START, lines) == TakeLine(TakeAll(START, lines[..n]), lines[n]);
      assert COMMIT <= lines[n] <==> IsCommit(lines[n]);
    }
  }

  ghost predicate AllSpace(s: string) { forall i :: 0 <= i < |s| ==> IsSpace(s[i]) }

  lemma {:induction false} TrimStartOver(a: string, s: string)
    requires AllSpace(a) && (s != [] ==> !IsSpace(s[0]))
    ensures TrimStart(a + s) == s
  {
    if a == [] {
      assert a + s == s;
    } else {
      assert (a + s)[1..] == a[1..] + s;
      TrimStartOver(a[1..], s);
    }
  }

  lemma {:induction false} TrimEndOver(s: string, b: string)
    requires AllSpace(b) && (s != [] ==> !IsSpace(s[|s| - 1]))
    ensures TrimEnd(s + b) == s
    decreases |b|
  {
    if b == [] {
      assert s + b == s;
    } else {
      var n := |b| - 1;
      assert (s + b)[..|s| + n] == s + b[..n];
      TrimEndOver(s, b[..n]);
    }
  }

  /** Trimming takes the space off both ends and nothing else. */
  lemma TrimIs(a: string, s: string, b: string)
    requires AllSpace(a) && AllSpace(b) && s != [] && !IsSpace(s[0]) && !IsSpace(s[|s| - 1])
    ensures Trim(a + s + b) == s
  {
    assert a + s + b == a + (s + b);
    TrimStartOver(a, s + b);
    TrimEndOver(s, b);
  }

  lemma {:induction false} UntilStops(w: string, rest: string, stop: char -> bool)
    requires forall i :: 0 <= i < |w| ==> !stop(w[i])
    requires rest != [] ==> stop(rest[0])
    ensures Until(w + rest, stop) == w
  {
    if w == [] {
      assert w + rest == rest;
    } else {
      assert (w + rest)[1..] == w[1..] + rest;
      UntilStops(w[1..], rest, stop);
    }
  }

  /** The id is the first word, of the part before any comma. */
  lemma IdInIs(a: string, w: string, b: string, rest: string)
    requires AllSpace(a) && w != [] && (forall i :: 0 <= i < |w| ==> !IsSpace(w[i]) && w[i] != ',')
    requires (b != [] ==> IsSpace(b[0])) && (forall i :: 0 <= i < |b| ==> b[i] != ',')
    requires rest != [] ==> rest[0] == ','
    ensures IdIn(a + w + b + rest) == w
  {
    var front := a + w + b;
    forall i | 0 <= i < |front| ensures front[i] != ',' {
    }
    UntilStops(front, rest, c => c == ',');
    assert front == a + (w + b);
    TrimStartOver(a, w + b);
    UntilStops(w, b, IsSpace);
  }

  // ---- composing a commit comment -----------------------------------------------------------

  datatype Tier = Public | Private

  datatype Agent = Agent(provider: string, tier: Tier, model: string, skills: seq<string>)

  function LowerChar(c: char): char {
    if 'A' <= c <= 'Z' then (c as int + 32) as char else c
  }

  function Lower(s: string): string {
    seq(|s|, i requires 0 <= i < |s| => LowerChar(s[i]))
  }

  function Join(xs: seq<string>): string {
    if xs == [] then "" else if |xs| == 1 then xs[0] else xs[0] + " " + Join(xs[1..])
  }

  function TierName(t: Tier): string { if t.Public? then "public" else "private" }

  function Provenance(a: Agent, user: Option<string>): string {
    Lower(a.provider + "-" + TierName(a.tier)) + ", " + a.model + ", "
    + (if a.skills == [] then "none" else Join(a.skills))
    + (if user.Some? then ", " + user.value else "")
  }

  /** Everything in the line before the request id. */
  function Lead(comment: Option<string>, a: Agent, user: Option<string>): string {
    (if comment.Some? && Trim(comment.value) != "" then Trim(comment.value) + " | " else "") + Provenance(a, user)
  }

  function Compose(comment: Option<string>, a: Agent, user: Option<string>, requestId: string): string {
    Lead(comment, a, user) + " " + REQUEST + requestId
  }

  /** The comment, part by part: the operator's own words, then provider and tier, model, skills and
      user, then the request id. */
  lemma CommentText(comment: Option<string>, a: Agent, user: Option<string>, requestId: string)
    ensures var own := if comment.None? || Trim(comment.value) == "" then "" else Trim(comment.value) + " | ";
            var tier := if a.tier.Public? then "public" else "private";
            var skills := if a.skills == [] then "none" else Join(a.skills);
            var behalf := if user.None? then "" else ", " + user.value;
            var line := Lower(a.provider + "-" + tier) + ", " + a.model + ", " + skills + behalf;
            Compose(comment, a, user, requestId) == own + line + " request.id=" + requestId
  {
  }

  // ---- texts that do not name an id or a device -------------------------------------------------

  ghost predicate Free(s: string) { !Contains(s, REQUEST) && !Contains(s, DEVICE) }

  /** A pattern never straddles a character it does not have. */
  lemma OneSide(a: string, c: char, b: string, pat: string, i: nat)
    requires c !in pat && pat != "" && Occurs(a + [c] + b, pat, i)
    ensures (i + |pat| <= |a| && Occurs(a, pat, i)) || (i > |a| && Occurs(b, pat, i - |a| - 1))
  {
    var s := a + [c] + b;
    if i > |a| {
      forall j | 0 <= j < |pat| ensures b[i - |a| - 1 + j] == pat[j] {
        assert s[i + j] == pat[j];
      }
    } else if |a| < i + |pat| {
      Covers(s, pat, i, |a|);
    }
  }

  lemma Covers(s: string, pat: string, i: nat, k: nat)
    requires Occurs(s, pat, i) && i <= k < i + |pat|
    ensures s[k] in pat
  {
    assert pat[k - i] == s[i + (k - i)];
  }

  lemma NoStraddle(a: string, c: char, b: string, pat: string)
    requires c !in pat && pat != "" && !Contains(a, pat) && !Contains(b, pat)
    ensures !Contains(a + [c] + b, pat)
  {
    if Contains(a + [c] + b, pat) {
      var i: nat :| Occurs(a + [c] + b, pat, i);
      OneSide(a, c, b, pat, i);
    }
  }

  lemma JoinFree(a: string, c: char, b: string)
    requires c !in REQUEST && c !in DEVICE && Free(a) && Free(b)
    ensures Free(a + [c] + b)
  {
    NoStraddle(a, c, b, REQUEST);
    NoStraddle(a, c, b, DEVICE);
  }

  lemma TooShort(s: string, pat: string)
    requires |s| < |pat|
    ensures !Contains(s, pat)
  {
  }

  lemma NoFirst(s: string, pat: string)
    requires pat != "" && pat[0] !in s
    ensures !Contains(s, pat)
  {
    forall i: nat | i + |pat| <= |s| ensures !Occurs(s, pat, i) {
      assert s[i + 0] != pat[0];
    }
  }

  // ---- the log of a list of commits ------------------------------------------------------------

  /** One commit; `lead` is what its comment says before the request id. */
  datatype Commit = Commit(sha: string, device: string, lead: string, requestId: string)

  predicate IdText(id: string) {
    id != "" && forall i :: 0 <= i < |id| ==> IsLowerHex(id[i]) || id[i] == '-'
  }

  ghost predicate Name(s: string) { Trim(s) == s && Free(s) }

  ghost predicate Clean(c: Commit) { Name(c.sha) && Name(c.device) && IdText(c.requestId) && Free(c.lead) }

  function Comment(c: Commit): string { "    " + c.lead + " " + REQUEST + c.requestId }

  function Lines(c: Commit): seq<string> {
    [COMMIT + c.sha, "Device: " + c.device, Comment(c)]
  }

  function Log(cs: seq<Commit>): seq<string> {
    if cs == [] then [] else Lines(cs[0]) + Log(cs[1..])
  }

  function RefOf(c: Commit): Ref { Ref(c.device, c.sha, c.requestId) }

  function Refs(cs: seq<Commit>): seq<Ref> {
    seq(|cs|, i requires 0 <= i < |cs| => RefOf(cs[i]))
  }

  lemma CommitLine(st: State, sha: string)
    requires Name(sha)
    ensures TakeLine(st, COMMIT + sha) == State(Some(sha), None, st.refs)
  {
    hide Find, Trim;
    var line := COMMIT + sha;
    assert line[|COMMIT|..] == sha;
    TooShort("commit", REQUEST);
    TooShort("commit", DEVICE);
    JoinFree("commit", ' ', sha);
    assert line == "commit" + [' '] + sha;
    assert Find(line, DEVICE).None? && Find(line, REQUEST).None?;
  }

  lemma DeviceLine(st: State, device: string)
    requires Name(device)
    ensures TakeLine(st, "Device: " + device) == st.(device := Some(device))
  {
    var line := "Device: " + device;
    assert Occurs(line, DEVICE, 0);
    assert Find(line, DEVICE).value == 0;
    assert line[7..] == " " + device;
    TooShort(DEVICE, REQUEST);
    NoStraddle(DEVICE, ' ', device, REQUEST);
    assert line == DEVICE + [' '] + device;
    TooShort("", DEVICE);
    NoStraddle("", ' ', device, DEVICE);
    assert "" + [' '] + device == " " + device;
    assert Find(" " + device, DEVICE).None?;
    assert Second(line, DEVICE) == " " + device;
    assert (" " + device)[1..] == device;
    assert Trim(" " + device) == Trim(device);
    assert line[0] != COMMIT[0];
  }

  lemma {:induction false} UntilAll(s: string, stop: char -> bool)
    requires forall i :: 0 <= i < |s| ==> !stop(s[i])
    ensures Until(s, stop) == s
  {
    if s != [] {
      UntilAll(s[1..], stop);
    }
  }

  lemma IdAlone(id: string)
    requires IdText(id)
    ensures IdIn(id) == id
  {
    UntilAll(id, c => c == ',');
    assert !IsSpace(id[0]);
    UntilAll(id, IsSpace);
  }

  /** The only id in the comment is the commit's own. */
  lemma OnlyId(lead: string, id: string)
    requires IdText(id) && Free(lead)
    ensures var line := "    " + lead + " " + REQUEST + id;
            && Find(line, REQUEST).Some? && Second(line, REQUEST) == id
            && Find(line, DEVICE).None?
  {
    var a := "    " + lead;
    var b := REQUEST + id;
    var line := a + [' '] + b;
    assert line == "    " + lead + " " + REQUEST + id;
    TooShort("   ", REQUEST);
    TooShort("   ", DEVICE);
    JoinFree("   ", ' ', lead);
    assert a == "   " + [' '] + lead;
    assert 'D' !in b;
    NoFirst(b, DEVICE);
    NoStraddle(a, ' ', b, DEVICE);
    assert Occurs(line, REQUEST, |a| + 1);
    forall i: nat | i < |a| + 1 ensures !Occurs(line, REQUEST, i) {
      if Occurs(line, REQUEST, i) {
        OneSide(a, ' ', b, REQUEST, i);
      }
    }
    FirstIs(line, REQUEST, |a| + 1);
    assert line[|a| + 1 + |REQUEST|..] == id;
    assert 'r' !in id;
    NoFirst(id, REQUEST);
  }

  lemma FirstIs(s: string, pat: string, i: nat)
    requires Occurs(s, pat, i) && forall j: nat :: j < i ==> !Occurs(s, pat, j)
    ensures Find(s, pat) == Some(i)
  {
    var r := Find(s, pat);
  }

  lemma CommentLine(st: State, c: Commit)
    requires Clean(c) && st.commit == Some(c.sha) && st.device == Some(c.device)
    ensures TakeLine(st, Comment(c)) == st.(refs := st.refs + [RefOf(c)])
  {
    hide Find, Second, IdIn;
    OnlyId(c.lead, c.requestId);
    IdAlone(c.requestId);
    assert Comment(c)[0] == ' ' != COMMIT[0];
  }

  lemma CommitReadsBack(st: State, c: Commit)
    requires Clean(c)
    ensures TakeAll(st, Lines(c)) == State(Some(c.sha), Some(c.device), st.refs + [RefOf(c)])
  {
    hide TakeLine, Clean;
    var s1 := State(Some(c.sha), None, st.refs);
    var s2 := State(Some(c.sha), Some(c.device), st.refs);
    assert TakeLine(st, COMMIT + c.sha) == s1 && TakeLine(s1, "Device: " + c.device) == s2 by {
      assert Name(c.sha) && Name(c.device) by { CleanNames(c); }
      CommitLine(st, c.sha);
      DeviceLine(s1, c.device);
    }
    CommentLine(s2, c);
    TakeThree(st, COMMIT + c.sha, "Device: " + c.device, Comment(c));
  }

  lemma TakeThree(st: State, a: string, b: string, c: string)
    ensures TakeAll(st, [a, b, c]) == TakeLine(TakeLine(TakeLine(st, a), b), c)
  {
    hide TakeLine;
    var s2 := TakeLine(TakeLine(st, a), b);
    assert [a, b, c][1..] == [b, c] && [b, c][1..] == [c] && [c][1..] == [];
    assert TakeAll(s2, [c]) == TakeLine(s2, c);
    assert TakeAll(TakeLine(st, a), [b, c]) == TakeAll(s2, [c]);
  }

  lemma CleanNames(c: Commit)
    requires Clean(c)
    ensures Name(c.sha) && Name(c.device)
  {
  }

  lemma {:induction false} LogReadsBackFrom(st: State, cs: seq<Commit>)
    requires forall i :: 0 <= i < |cs| ==> Clean(cs[i])
    ensures TakeAll(st, Log(cs)).refs == st.refs + Refs(cs)
    decreases |cs|
  {
    hide Clean, Lines, TakeLine;
    if cs == [] {
      assert Refs(cs) == [];
    } else {
      var c := cs[0];
      assert Clean(c);
      CommitReadsBack(st, c);
      TakeAllSplit(st, Lines(c), Log(cs[1..]));
      hide TakeAll;
      LogReadsBackFrom(TakeAll(st, Lines(c)), cs[1..]);
      assert Refs(cs) == [RefOf(c)] + Refs(cs[1..]);
    }
  }

  /** The log of any list of commits reads back as exactly those commits, in order. */
  lemma LogReadsBack(cs: seq<Commit>)
    requires forall i :: 0 <= i < |cs| ==> Clean(cs[i])
    ensures TakeAll(START, Log(cs)).refs == Refs(cs)
  {
    hide TakeAll, Log, Refs, Clean;
    LogReadsBackFrom(START, cs);
    assert [] + Refs(cs) == Refs(cs);
  }

  // ---- which comments are plain -------------------------------------------------------------------

  /** Every text that goes into a comment, as it goes in. */
  ghost predicate PartsFree(comment: Option<string>, a: Agent, user: Option<string>) {
    && (comment.Some? ==> Free(Trim(comment.value)))
    && Free(Lower(a.provider)) && Free(a.model)
    && (forall i :: 0 <= i < |a.skills| ==> Free(a.skills[i]))
    && (user.Some? ==> Free(user.value))
  }

  lemma PartOf(a: string, s: string, b: string, pat: string)
    requires Contains(s, pat)
    ensures Contains(a + s + b, pat)
  {
    var i: nat :| Occurs(s, pat, i);
    var t := a + s + b;
    forall j | 0 <= j < |pat| ensures t[|a| + i + j] == pat[j] {
      assert s[i + j] == pat[j];
    }
    assert Occurs(t, pat, |a| + i);
  }

  lemma FreePart(a: string, s: string, b: string)
    requires Free(a + s + b)
    ensures Free(s)
  {
    if Contains(s, REQUEST) {
      PartOf(a, s, b, REQUEST);
    }
    if Contains(s, DEVICE) {
      PartOf(a, s, b, DEVICE);
    }
  }

  /** Joined by a separator with a character of neither pattern, texts are free together exactly
      when each is. */
  lemma JoinIff(a: string, c: char, b: string)
    requires c !in REQUEST && c !in DEVICE
    ensures Free(a + [c] + b) <==> Free(a) && Free(b)
  {
    if Free(a + [c] + b) {
      assert a + [c] + b == [] + a + ([c] + b);
      FreePart([], a, [c] + b);
      assert a + [c] + b == a + [c] + b + [];
      FreePart(a + [c], b, []);
    } else if Free(a) && Free(b) {
      JoinFree(a, c, b);
    }
  }

  lemma PairIff(a: string, c: char, d: char, b: string)
    requires c !in REQUEST && c !in DEVICE && d !in REQUEST && d !in DEVICE
    ensures Free(a + [c, d] + b) <==> Free(a) && Free(b)
  {
    TooShort("", REQUEST);
    TooShort("", DEVICE);
    JoinIff("", d, b);
    JoinIff(a, c, "" + [d] + b);
    assert a + [c, d] + b == a + [c] + ("" + [d] + b);
  }

  lemma {:induction false} SkillsIff(xs: seq<string>)
    ensures Free(Join(xs)) <==> forall i :: 0 <= i < |xs| ==> Free(xs[i])
  {
    if xs == [] {
      TooShort("", REQUEST);
      TooShort("", DEVICE);
    } else if |xs| > 1 {
      SkillsIff(xs[1..]);
      JoinIff(xs[0], ' ', Join(xs[1..]));
      assert Join(xs) == xs[0] + [' '] + Join(xs[1..]);
      hide Free;
      assert (forall i :: 0 <= i < |xs| ==> Free(xs[i]))
        <==> Free(xs[0]) && (forall i :: 0 <= i < |xs[1..]| ==> Free(xs[1..][i])) by {
        assert xs == [xs[0]] + xs[1..];
      }
    }
  }

  lemma ProviderIff(provider: string, t: Tier)
    ensures Free(Lower(provider + "-" + TierName(t))) <==> Free(Lower(provider))
  {
    var tier := TierName(t);
    assert Lower(provider + "-" + tier) == Lower(provider) + ['-'] + Lower(tier);
    TooShort(Lower(tier), REQUEST);
    assert 'D' !in Lower(tier);
    NoFirst(Lower(tier), DEVICE);
    JoinIff(Lower(provider), '-', Lower(tier));
  }

  lemma ProvenanceIff(a: Agent, user: Option<string>)
    ensures Free(Provenance(a, user)) <==>
              Free(Lower(a.provider)) && Free(a.model) && (forall i :: 0 <= i < |a.skills| ==> Free(a.skills[i]))
              && (user.Some? ==> Free(user.value))
  {
    var p := Lower(a.provider + "-" + TierName(a.tier));
    var skills := if a.skills == [] then "none" else Join(a.skills);
    ProviderIff(a.provider, a.tier);
    SkillsIff(a.skills);
    TooShort("none", REQUEST);
    TooShort("none", DEVICE);
    hide Free, Join, Lower;
    PairIff(p, ',', ' ', a.model);
    PairIff(p + ", " + a.model, ',', ' ', skills);
    if user.Some? {
      PairIff(p + ", " + a.model + ", " + skills, ',', ' ', user.value);
      assert p + ", " + a.model + ", " + skills + (", " + user.value)
          == p + ", " + a.model + ", " + skills + ", " + user.value;
    } else {
      assert p + ", " + a.model + ", " + skills + "" == p + ", " + a.model + ", " + skills;
    }
  }

  lemma EmptyIsFree()
    ensures Free("")
  {
    TooShort("", REQUEST);
    TooShort("", DEVICE);
  }

  /** A composed comment names no id but its own and no device exactly when none of the texts in it
      does, the provider's being taken in lower case. */
  lemma ComposedPlainIff(comment: Option<string>, a: Agent, user: Option<string>)
    ensures Free(Lead(comment, a, user)) <==> PartsFree(comment, a, user)
  {
    hide Free, Provenance, Trim, Lower;
    ProvenanceIff(a, user);
    assert Free("") by { EmptyIsFree(); }
    var p := Provenance(a, user);
    if comment.Some? && Trim(comment.value) != "" {
      var t := Trim(comment.value);
      PairIff("", '|', ' ', p);
      JoinIff(t, ' ', "" + ['|', ' '] + p);
      assert t + " | " + p == t + [' '] + ("" + ['|', ' '] + p);
    } else {
      assert "" + p == p;
    }
  }

  // ---- the whole way, as text ------------------------------------------------------------------------

  function DropReturn(line: string): string {
    if line != [] && line[|line| - 1] == '\r' then line[..|line| - 1] else line
  }

  function LineLength(s: string): nat
    ensures LineLength(s) <= |s|
  {
    if s == [] || s[0] == '\n' then 0 else 1 + LineLength(s[1..])
  }

  /** Lines end at a newline, with a carriage return before it dropped. */
  function SplitLines(s: string): seq<string>
    decreases |s|
  {
    if s == [] then []
    else
      var n := LineLength(s);
      if n == |s| then [s] else [DropReturn(s[..n])] + SplitLines(s[n + 1..])
  }

  function Unlines(lines: seq<string>): string {
    if lines == [] then "" else lines[0] + "\n" + Unlines(lines[1..])
  }

  predicate OneLine(s: string) {
    '\n' !in s && (s != [] ==> s[|s| - 1] != '\r')
  }

  lemma {:induction false} LineLengthIs(l: string, rest: string)
    requires '\n' !in l
    ensures LineLength(l + "\n" + rest) == |l|
  {
    if l == [] {
      assert (l + "\n" + rest)[0] == '\n';
    } else {
      assert (l + "\n" + rest)[1..] == l[1..] + "\n" + rest;
      LineLengthIs(l[1..], rest);
    }
  }

  lemma {:induction false} TextSplits(lines: seq<string>)
    requires forall i :: 0 <= i < |lines| ==> OneLine(lines[i])
    ensures SplitLines(Unlines(lines)) == lines
  {
    if lines != [] {
      var (l, rest) := (lines[0], Unlines(lines[1..]));
      assert OneLine(l);
      LineLengthIs(l, rest);
      TextSplits(lines[1..]);
      var s := l + "\n" + rest;
      assert s[..|l|] == l && s[|l| + 1..] == rest;
      assert lines == [l] + lines[1..];
    }
  }

  /** A commit as it is made: its comment is composed, not given. */
  datatype Made = Made(
    sha: string, device: string, comment: Option<string>, agent: Agent, user: Option<string>, requestId: string)

  /** Its names are names, and each of its texts fits on one line. */
  ghost predicate Proper(m: Made) {
    && Name(m.sha) && '\n' !in m.sha && Name(m.device) && '\n' !in m.device && IdText(m.requestId)
    && '\n' !in Lead(m.comment, m.agent, m.user)
  }

  ghost predicate Plain(m: Made) {
    Proper(m) && PartsFree(m.comment, m.agent, m.user)
  }

  function Entry(m: Made): seq<string> {
    [COMMIT + m.sha, "Device: " + m.device, "    " + Compose(m.comment, m.agent, m.user, m.requestId)]
  }

  function Entries(ms: seq<Made>): seq<string> {
    if ms == [] then [] else Entry(ms[0]) + Entries(ms[1..])
  }

  function CommitOf(m: Made): Commit {
    Commit(m.sha, m.device, Lead(m.comment, m.agent, m.user), m.requestId)
  }

  function Commits(ms: seq<Made>): seq<Commit> {
    seq(|ms|, i requires 0 <= i < |ms| => CommitOf(ms[i]))
  }

  lemma EntryIs(m: Made)
    ensures Entry(m) == Lines(CommitOf(m))
  {
    var (lead, id) := (Lead(m.comment, m.agent, m.user), m.requestId);
    hide Lead;
    assert "    " + (lead + " " + REQUEST + id) == "    " + lead + " " + REQUEST + id;
  }

  lemma {:induction false} EntriesAre(ms: seq<Made>)
    ensures Entries(ms) == Log(Commits(ms))
  {
    if ms != [] {
      EntryIs(ms[0]);
      EntriesAre(ms[1..]);
      assert Commits(ms)[1..] == Commits(ms[1..]);
      assert Commits(ms)[0] == CommitOf(ms[0]);
    }
  }

  lemma NameEnds(s: string)
    requires Trim(s) == s && s != []
    ensures s[|s| - 1] != '\r'
  {
    NoTrailing(TrimStart(s));
  }

  lemma {:induction false} NoTrailing(s: string)
    ensures TrimEnd(s) == [] || !IsSpace(TrimEnd(s)[|TrimEnd(s)| - 1])
  {
    if s != [] && IsSpace(s[|s| - 1]) {
      NoTrailing(s[..|s| - 1]);
    }
  }

  lemma EntryLines(m: Made)
    requires Proper(m)
    ensures forall i :: 0 <= i < |Entry(m)| ==> OneLine(Entry(m)[i])
  {
    hide Free, Trim, PartsFree, Lead;
    if m.sha != [] {
      NameEnds(m.sha);
    }
    if m.device != [] {
      NameEnds(m.device);
    }
    EntryIs(m);
    var c := CommitOf(m);
    assert OneLine(COMMIT + m.sha);
    assert OneLine("Device: " + m.device);
    var id := m.requestId;
    assert Comment(c)[|Comment(c)| - 1] == id[|id| - 1];
    assert OneLine(Comment(c));
  }

  lemma {:induction false} EntriesLines(ms: seq<Made>)
    requires forall i :: 0 <= i < |ms| ==> Proper(ms[i])
    ensures forall i :: 0 <= i < |Entries(ms)| ==> OneLine(Entries(ms)[i])
  {
    hide Proper, OneLine, Entry;
    if ms != [] {
      assert Proper(ms[0]);
      EntryLines(ms[0]);
      EntriesLines(ms[1..]);
    }
  }

  lemma PlainIsClean(m: Made)
    requires Plain(m)
    ensures Clean(CommitOf(m))
  {
    hide Lead, PartsFree, Free, Trim;
    ComposedPlainIff(m.comment, m.agent, m.user);
  }

  /** The log of `ms` as text, split into lines and parsed, gives their devices, commits and ids. */
  predicate LogIsReadBack(ms: seq<Made>) {
    TakeAll(START, SplitLines(Unlines(Entries(ms)))).refs == RefsMade(ms)
  }

  function RefsMade(ms: seq<Made>): seq<Ref> {
    seq(|ms|, i requires 0 <= i < |ms| => Ref(ms[i].device, ms[i].sha, ms[i].requestId))
  }

  lemma SplitsBack(ms: seq<Made>)
    requires forall i :: 0 <= i < |ms| ==> Proper(ms[i])
    ensures SplitLines(Unlines(Entries(ms))) == Entries(ms)
  {
    hide Proper, Unlines, SplitLines, Entries;
    EntriesLines(ms);
    TextSplits(Entries(ms));
  }

  /** For any list of commits whose comments are composed from plain single-line texts, the log of
      them, split into lines and parsed, gives back their devices, commits and request ids, in order. */
  lemma ComposedLogReadsBack(ms: seq<Made>)
    requires forall i :: 0 <= i < |ms| ==> Plain(ms[i])
    ensures LogIsReadBack(ms)
  {
    hide Proper, Clean, TakeAll, Unlines, SplitLines, Entries, Log, PartsFree;
    SplitsBack(ms);
    EntriesAre(ms);
    var cs := Commits(ms);
    forall i | 0 <= i < |cs| ensures Clean(cs[i]) {
      assert Plain(ms[i]);
      PlainIsClean(ms[i]);
    }
    LogReadsBack(cs);
  }

  // ---- exactly which comments read back ----------------------------------------------------------------

  predicate ReadsBack(sha: string, device: string, lead: string, id: string) {
    TakeAll(START, Lines(Commit(sha, device, lead, id))).refs == [Ref(device, sha, id)]
  }

  /** Whatever commit it is put on, the comment reads back as that commit's own. */
  ghost predicate AlwaysReadsBack(lead: string) {
    forall sha, device, id :: Name(sha) && Name(device) && IdText(id) ==> ReadsBack(sha, device, lead, id)
  }

  lemma OneIsARead(sha: string, device: string, lead: string, id: string)
    requires Name(sha) && Name(device)
    ensures TakeAll(START, Lines(Commit(sha, device, lead, id)))
         == TakeLine(State(Some(sha), Some(device), []), "    " + lead + " " + REQUEST + id)
  {
    hide TakeLine, TakeAll, Name;
    var c := Commit(sha, device, lead, id);
    CommitLine(START, sha);
    DeviceLine(State(Some(sha), None, []), device);
    TakeThree(START, COMMIT + sha, "Device: " + device, Comment(c));
  }

  /** What is found depends on what precedes its end only. */
  lemma FindInFront(p: string, t: string, pat: string, i: nat)
    requires pat != "" && Find(p, pat) == Some(i)
    ensures Find(p + t, pat) == Some(i)
  {
    var s := p + t;
    forall j | 0 <= j < |pat| ensures s[i + j] == pat[j] {
      assert p[i + j] == pat[j];
    }
    forall k: nat | k < i ensures !Occurs(s, pat, k) {
      if Occurs(s, pat, k) {
        forall j | 0 <= j < |pat| ensures p[k + j] == pat[j] {
          assert s[k + j] == pat[j];
        }
        assert Occurs(p, pat, k);
      }
    }
    FirstIs(s, pat, i);
  }

  lemma OccursIn(a: string, pat: string, b: string)
    ensures Occurs(a + pat + b, pat, |a|)
  {
  }

  /** With an id named in the lead, the id after it is never looked at. */
  lemma OwnIdIsPassedOver(lead: string, id: string)
    requires Contains(lead, REQUEST)
    ensures var p := "    " + lead + " " + REQUEST;
            var line := p + id;
            && Find(p, REQUEST).Some? && Find(line, REQUEST) == Find(p, REQUEST)
            && Second(line, REQUEST) == Second(p, REQUEST)
  {
    hide Find, Second, Occurs;
    PartOf("    ", lead, " ", REQUEST);
    LaterIsPassedOver("    " + lead + " ", REQUEST, id);
  }

  /** In front of a repeated `pat`, the first occurrence and what is cut off after it do not depend on
      what follows. */
  lemma LaterIsPassedOver(a: string, pat: string, t: string)
    requires pat != "" && Contains(a, pat)
    ensures Find(a + pat, pat).Some? && Find(a + pat + t, pat) == Find(a + pat, pat)
    ensures Second(a + pat + t, pat) == Second(a + pat, pat)
  {
    hide Find, Occurs, FirstAt, Second;
    var k: nat :| Occurs(a, pat, k);
    InFront(a, pat, pat, k);
    var i := Find(a + pat, pat).value;
    FindInFront(a + pat, t, pat, i);
    RestAfter(a, pat, t, i + |pat|);
    NextIsIn(a[i + |pat|..], pat);
    var n := Find(a[i + |pat|..] + pat, pat).value;
    FindInFront(a[i + |pat|..] + pat, t, pat, n);
    SecondIs(a + pat, pat, i, a[i + |pat|..] + pat, n);
    SecondIs(a + pat + t, pat, i, a[i + |pat|..] + pat + t, n);
    SameFront(a[i + |pat|..] + pat, t, n);
  }

  lemma RestAfter(a: string, pat: string, t: string, i: nat)
    requires i <= |a|
    ensures (a + pat)[i..] == a[i..] + pat && (a + pat + t)[i..] == a[i..] + pat + t
  {
  }

  lemma SameFront(s: string, t: string, n: nat)
    requires n <= |s|
    ensures (s + t)[..n] == s[..n]
  {
  }

  lemma NextIsIn(b: string, pat: string)
    ensures Find(b + pat, pat).Some? && Find(b + pat, pat).value <= |b + pat|
  {
    hide Find;
    assert b + pat + "" == b + pat;
    OccursIn(b, pat, "");
  }

  lemma SecondIs(s: string, pat: string, i: nat, rest: string, n: nat)
    requires Find(s, pat) == Some(i) && i + |pat| <= |s| && s[i + |pat|..] == rest
    requires Find(rest, pat) == Some(n) && n <= |rest|
    ensures Second(s, pat) == rest[..n]
  {
    hide Find, FirstAt;
  }

  /** An occurrence in front is the first one's latest place. */
  lemma InFront(a: string, t: string, pat: string, k: nat)
    requires Occurs(a, pat, k)
    ensures Find(a + t, pat).Some? && Find(a + t, pat).value + |pat| <= |a|
  {
    var s := a + t;
    forall j | 0 <= j < |pat| ensures s[k + j] == pat[j] {
      assert a[k + j] == pat[j];
    }
    assert Occurs(s, pat, k);
  }

  lemma NamesAnId(lead: string)
    requires Contains(lead, REQUEST)
    ensures !ReadsBack("s", "d", lead, "a") || !ReadsBack("s", "d", lead, "b")
  {
    LettersAreNames();
    OneIsARead("s", "d", lead, "a");
    OneIsARead("s", "d", lead, "b");
    OwnIdIsPassedOver(lead, "a");
    OwnIdIsPassedOver(lead, "b");
    hide Find, Second, IdIn, TakeAll, Contains;
    var st := State(Some("s"), Some("d"), []);
    TakenId(st, "    " + lead + " " + REQUEST + "a");
    TakenId(st, "    " + lead + " " + REQUEST + "b");
  }

  lemma TakenId(st: State, line: string)
    requires st.refs == [] && Find(line, REQUEST).Some?
    ensures var r := TakeLine(st, line).refs; r == [] || (|r| == 1 && r[0].requestId == IdIn(Second(line, REQUEST)))
  {
    hide Find, Second, IdIn;
  }

  lemma LineNamesADevice(lead: string)
    requires Contains(lead, DEVICE)
    ensures Find("    " + lead + " " + REQUEST + "a", DEVICE).Some?
  {
    PartOf("    ", lead, " " + REQUEST + "a", DEVICE);
    assert "    " + lead + " " + REQUEST + "a" == "    " + lead + (" " + REQUEST + "a");
  }

  lemma NamesADevice(lead: string)
    requires Contains(lead, DEVICE)
    ensures !ReadsBack("s", "d", lead, "a") || !ReadsBack("s", "s", lead, "a")
  {
    hide TakeAll, Contains, Find, TakeLine, Second, Trim;
    LettersAreNames();
    OneIsARead("s", "d", lead, "a");
    OneIsARead("s", "s", lead, "a");
    var line := "    " + lead + " " + REQUEST + "a";
    LineNamesADevice(lead);
    TakenDevice(State(Some("s"), Some("d"), []), line);
    TakenDevice(State(Some("s"), Some("s"), []), line);
  }

  lemma TakenDevice(st: State, line: string)
    requires st.refs == [] && Find(line, DEVICE).Some?
    ensures var r := TakeLine(st, line).refs; r == [] || (|r| == 1 && r[0].device == Trim(Second(line, DEVICE)))
  {
    hide Find, Second, IdIn, Trim;
  }

  /** A comment reads back on every commit exactly when what precedes its id names no id and no device. */
  lemma ReadsBackIff(lead: string)
    ensures AlwaysReadsBack(lead) <==> Free(lead)
  {
    hide ReadsBack;
    if Free(lead) {
      forall sha, device, id | Name(sha) && Name(device) && IdText(id) ensures ReadsBack(sha, device, lead, id) {
        FreeReadsBack(sha, device, lead, id);
      }
    } else {
      LettersAreNames();
      assert IdText("a") && IdText("b");
      if Contains(lead, REQUEST) {
        NamesAnId(lead);
      } else {
        NamesADevice(lead);
      }
    }
  }

  lemma FreeReadsBack(sha: string, device: string, lead: string, id: string)
    requires Name(sha) && Name(device) && IdText(id) && Free(lead)
    ensures ReadsBack(sha, device, lead, id)
  {
    hide TakeAll, Name, Free, IdText;
    var c := Commit(sha, device, lead, id);
    CommitReadsBack(START, c);
    assert [] + [RefOf(c)] == [RefOf(c)];
  }

  /** So a composed comment reads back on every commit exactly when none of the texts in it names an
      id or a device, the provider's being taken in lower case. */
  lemma ComposedReadsBackIff(comment: Option<string>, a: Agent, user: Option<string>)
    ensures AlwaysReadsBack(Lead(comment, a, user)) <==> PartsFree(comment, a, user)
  {
    hide AlwaysReadsBack, PartsFree, Free, Lead;
    ReadsBackIff(Lead(comment, a, user));
    ComposedPlainIff(comment, a, user);
  }

  // ---- whole logs --------------------------------------------------------------------------------------

  /** What goes into a comment besides the request id. */
  datatype Wording = Wording(comment: Option<string>, agent: Agent, user: Option<string>)

  function WordingOf(m: Made): Wording { Wording(m.comment, m.agent, m.user) }

  /** Every log of commits worded in one of these ways reads back. */
  ghost predicate LogsReadBack(ws: set<Wording>) {
    forall ms: seq<Made> ::
      (forall i :: 0 <= i < |ms| ==> Proper(ms[i]) && WordingOf(ms[i]) in ws) ==> LogIsReadBack(ms)
  }

  /** For any set of single-line wordings: every log composed with them reads back, as text, exactly when
      none of their texts names an id or a device, the provider's being taken in lower case. */
  lemma ComposedLogsReadBackIff(ws: set<Wording>)
    requires forall w :: w in ws ==> '\n' !in Lead(w.comment, w.agent, w.user)
    ensures LogsReadBack(ws) <==> forall w :: w in ws ==> PartsFree(w.comment, w.agent, w.user)
  {
    hide LogIsReadBack, PartsFree, Proper;
    if forall w :: w in ws ==> PartsFree(w.comment, w.agent, w.user) {
      forall ms: seq<Made> | forall i :: 0 <= i < |ms| ==> Proper(ms[i]) && WordingOf(ms[i]) in ws
        ensures LogIsReadBack(ms)
      {
        ComposedLogReadsBack(ms);
      }
    } else {
      var w :| w in ws && !PartsFree(w.comment, w.agent, w.user);
      var m := WordedMisread(w);
      assert WordingOf([m][0]) in ws;
    }
  }

  function Worded(w: Wording, device: string, id: string): Made {
    Made("s", device, w.comment, w.agent, w.user, id)
  }

  /** Some commit so worded is not read back. */
  lemma WordedMisread(w: Wording) returns (m: Made)
    requires !PartsFree(w.comment, w.agent, w.user) && '\n' !in Lead(w.comment, w.agent, w.user)
    ensures Proper(m) && WordingOf(m) == w && !LogIsReadBack([m])
  {
    var lead := Lead(w.comment, w.agent, w.user);
    hide PartsFree, ReadsBack, LogIsReadBack, Lead;
    ComposedPlainIff(w.comment, w.agent, w.user);
    LettersAreNames();
    if Contains(lead, REQUEST) {
      NamesAnId(lead);
      m := Worded(w, "d", if ReadsBack("s", "d", lead, "a") then "b" else "a");
    } else {
      NamesADevice(lead);
      m := Worded(w, if ReadsBack("s", "d", lead, "a") then "s" else "d", "a");
    }
    OneCommitLog(m);
  }

  lemma OneCommitLog(m: Made)
    requires Proper(m)
    ensures LogIsReadBack([m]) <==> ReadsBack(m.sha, m.device, Lead(m.comment, m.agent, m.user), m.requestId)
  {
    hide Proper, TakeAll, Unlines, SplitLines, Lead;
    SplitsBack([m]);
    EntryIs(m);
    assert [m][1..] == [] && Entries([m]) == Entry(m) + [] == Entry(m);
    var c := CommitOf(m);
    assert c == Commit(m.sha, m.device, Lead(m.comment, m.agent, m.user), m.requestId);
    assert Entries([m]) == Lines(c);
    hide Entry, Entries, Lines;
    assert RefsMade([m]) == [Ref(m.device, m.sha, m.requestId)];
  }

  const SHOUTING := Agent("REQUEST.ID=0", Public, "m", [])

  /** Plain texts are not enough: a provider that names an id in capitals takes the place of the
      commit's own once it is in lower case. */
  lemma ShoutedProviderIsReadAsAnId()
    ensures Free(SHOUTING.provider) && Free(SHOUTING.model) && IdText("a")
    ensures TakeAll(START, Lines(Commit("s", "d", Lead(None, SHOUTING, None), "a"))).refs != [Ref("d", "s", "a")]
  {
    hide Lead, TakeAll, Free;
    ShoutingIsFree();
    var c := Commit("s", "d", Lead(None, SHOUTING, None), "a");
    ShoutedLead();
    ShoutedComment(c.lead);
    hide Comment;
    ShoutedLine(Comment(c));
    ShoutedLog(Comment(c));
  }

  lemma ShoutedComment(lead: string)
    requires |lead| >= 12 && lead[..12] == REQUEST + "0"
    ensures var line := "    " + lead + " " + REQUEST + "a"; |line| > 16 && line[..16] == "    " + REQUEST + "0"
  {
    assert ("    " + lead + " " + REQUEST + "a")[..16] == "    " + lead[..12];
  }

  lemma ShoutingIsFree()
    ensures Free(SHOUTING.provider) && Free(SHOUTING.model)
  {
    NoFirst(SHOUTING.provider, REQUEST);
    NoDevice(SHOUTING.provider);
    TooShort(SHOUTING.model, REQUEST);
    TooShort(SHOUTING.model, DEVICE);
  }

  lemma ShoutedLead()
    ensures var lead := Lead(None, SHOUTING, None); |lead| >= 12 && lead[..12] == REQUEST + "0"
  {
    var p := Lower("REQUEST.ID=0" + "-" + "public");
    assert p[..12] == REQUEST + "0";
    hide Lower;
  }

  lemma NoDevice(s: string)
    requires ':' !in s
    ensures !Contains(s, DEVICE)
  {
    forall i: nat | i + |DEVICE| <= |s| ensures !Occurs(s, DEVICE, i) {
      assert s[i + 6] != DEVICE[6];
    }
  }

  lemma ShoutedLine(line: string)
    requires |line| > 16 && line[..16] == "    " + REQUEST + "0"
    ensures Find(line, REQUEST).Some? && IdIn(Second(line, REQUEST)) != "a"
  {
    forall j | 0 <= j < |REQUEST| ensures line[4 + j] == REQUEST[j] {
      assert line[..16][4 + j] == REQUEST[j];
    }
    forall j: nat | j < 4 ensures !Occurs(line, REQUEST, j) {
      assert line[j] == line[..16][j] == ' ';
      assert line[j + 0] != REQUEST[0];
    }
    FirstIs(line, REQUEST, 4);
    ShoutedRest(line);
  }

  lemma ShoutedRest(line: string)
    requires |line| > 16 && line[..16] == "    " + REQUEST + "0" && Find(line, REQUEST) == Some(4)
    ensures IdIn(Second(line, REQUEST)) != "a"
  {
    var rest := line[15..];
    assert rest[0] == line[..16][15] == '0';
    assert !Occurs(rest, REQUEST, 0) by { assert rest[0 + 0] != REQUEST[0]; }
    IdStarts(Second(line, REQUEST));
  }

  lemma IdStarts(s: string)
    requires s != "" && s[0] == '0'
    ensures IdIn(s) != "" && IdIn(s)[0] == '0'
  {
    var t := Until(s, c => c == ',');
    assert t != "" && t[0] == '0';
    assert TrimStart(t) == t;
  }

  lemma ShoutedLog(line: string)
    requires Find(line, REQUEST).Some? && IdIn(Second(line, REQUEST)) != "a"
    ensures TakeAll(START, [COMMIT + "s", "Device: " + "d", line]).refs != [Ref("d", "s", "a")]
  {
    hide Find, Second, IdIn, Trim;
    TakeThree(START, COMMIT + "s", "Device: " + "d", line);
    var st := TakeLine(TakeLine(START, COMMIT + "s"), "Device: " + "d");
    assert st.refs == [] by {
      LettersAreNames();
      CommitLine(START, "s");
      DeviceLine(State(Some("s"), None, []), "d");
    }
    var n := TakeLine(st, line);
    assert n.refs == [] || n.refs[0].requestId == IdIn(Second(line, REQUEST));
  }

  lemma LettersAreNames()
    ensures Name("s") && Name("d")
  {
    TooShort("s", REQUEST);
    TooShort("s", DEVICE);
    TooShort("d", REQUEST);
    TooShort("d", DEVICE);
  }
}
