/** Unpadded base64url (section 5 of RFC 4648). */
module Base64Url {
  import opened Text

  const FIRST: string := "ABCDEFGHIJKLMNOP"
  const SECOND: string := "QRSTUVWXYZabcdef"
  const THIRD: string := "ghijklmnopqrstuv"
  const FOURTH: string := "wxyz0123456789-_"
  const ALPHABET: string := FIRST + SECOND + THIRD + FOURTH

  /** The six bits a character stands for, or 64. */
  function Value(c: char): (n: int)
    ensures 0 <= n <= 64
  {
    if 'A' <= c <= 'Z' then c as int - 'A' as int
    else if 'a' <= c <= 'z' then c as int - 'a' as int + 26
    else if '0' <= c <= '9' then c as int - '0' as int + 52
    else if c == '-' then 62
    else if c == '_' then 63
    else 64
  }

  predicate InAlphabet(c: char) { Value(c) < 64 }

  lemma FirstValue(n: int)
    requires 0 <= n < 16
    ensures Value(FIRST[n]) == n
  {
  }

  lemma SecondValue(n: int)
    requires 0 <= n < 16
    ensures Value(SECOND[n]) == n + 16
  {
  }

  lemma ThirdValue(n: int)
    requires 0 <= n < 16
    ensures Value(THIRD[n]) == n + 32
  {
  }

  lemma FourthValue(n: int)
    requires 0 <= n < 16
    ensures Value(FOURTH[n]) == n + 48
  {
  }

  lemma SymbolValue(n: int)
    requires 0 <= n < 64
    ensures Value(ALPHABET[n]) == n
  {
    hide Value;
    if n < 16 {
      FirstValue(n);
    } else if n < 32 {
      SecondValue(n - 16);
    } else if n < 48 {
      ThirdValue(n - 32);
    } else {
      FourthValue(n - 48);
    }
  }

  // ---- one group -----------------------------------------------------------------

  /** Up to three bytes in 24 bits, left-aligned. */
  function Triple(chunk: seq<Byte>): int
    requires 1 <= |chunk| <= 3
    ensures 0 <= Triple(chunk) < 16777216
  {
    var b0: int := chunk[0];
    var b1: int := if |chunk| > 1 then chunk[1] else 0;
    var b2: int := if |chunk| > 2 then chunk[2] else 0;
    b0 * 65536 + b1 * 256 + b2
  }

  /** Six bits at a time, from the left. */
  function Sextet(t: int, i: int): (n: int)
    requires 0 <= t < 16777216 && 0 <= i < 4
    ensures 0 <= n < 64
  {
    if i == 0 then t / 262144 else if i == 1 then t / 4096 % 64 else if i == 2 then t / 64 % 64 else t % 64
  }

  function Group(chunk: seq<Byte>): string
    requires 1 <= |chunk| <= 3
  {
    seq(|chunk| + 1, i requires 0 <= i < |chunk| + 1 => ALPHABET[Sextet(Triple(chunk), i)])
  }

  function Encode(bytes: seq<Byte>): string {
    if bytes == [] then ""
    else if |bytes| <= 3 then Group(bytes)
    else Group(bytes[..3]) + Encode(bytes[3..])
  }

  // ---- decoding --------------------------------------------------------------------

  /** The bytes of one group of two to four characters. */
  function Ungroup(s: string): seq<Byte>
    requires 2 <= |s| <= 4 && forall i :: 0 <= i < |s| ==> InAlphabet(s[i])
  {
    assert InAlphabet(s[0]) && InAlphabet(s[1]) && (|s| > 2 ==> InAlphabet(s[2])) && (|s| > 3 ==> InAlphabet(s[3]));
    var (v0, v1) := (Value(s[0]), Value(s[1]));
    var v2 := if |s| > 2 then Value(s[2]) else 0;
    var v3 := if |s| > 3 then Value(s[3]) else 0;
    var b0: Byte := v0 * 4 + v1 / 16;
    var b1: Byte := v1 % 16 * 16 + v2 / 4;
    var b2: Byte := v2 % 4 * 64 + v3;
    [b0] + (if |s| > 2 then [b1] else []) + (if |s| > 3 then [b2] else [])
  }

  function Decode(s: string): Option<seq<Byte>> {
    if s == "" then Some([])
    else if |s| == 1 || exists i :: 0 <= i < |s| && !InAlphabet(s[i]) then None
    else if |s| <= 4 then Some(Ungroup(s))
    else
      var rest := Decode(s[4..]);
      if rest.None? then None else Some(Ungroup(s[..4]) + rest.value)
  }

  lemma SextetsAre(w: int, x: int, y: int, z: int)
    requires 0 <= w < 64 && 0 <= x < 64 && 0 <= y < 64 && 0 <= z < 64
    ensures var t := w * 262144 + x * 4096 + y * 64 + z;
            Sextet(t, 0) == w && Sextet(t, 1) == x && Sextet(t, 2) == y && Sextet(t, 3) == z
  {
    var t := w * 262144 + x * 4096 + y * 64 + z;
    assert t / 4096 == w * 64 + x;
    assert t / 64 == w * 4096 + x * 64 + y;
  }

  lemma Regrouped(a: int, b: int, c: int)
    requires 0 <= a < 256 && 0 <= b < 256 && 0 <= c < 256
    ensures var t := a * 65536 + b * 256 + c;
            && Sextet(t, 0) == a / 4 && Sextet(t, 1) == a % 4 * 16 + b / 16
            && Sextet(t, 2) == b % 16 * 4 + c / 64 && Sextet(t, 3) == c % 64
  {
    hide Sextet;
    var (w, x, y, z) := (a / 4, a % 4 * 16 + b / 16, b % 16 * 4 + c / 64, c % 64);
    assert a == 4 * (a / 4) + a % 4 && b == 16 * (b / 16) + b % 16 && c == 64 * (c / 64) + c % 64;
    assert a * 65536 + b * 256 + c == w * 262144 + x * 4096 + y * 64 + z;
    SextetsAre(w, x, y, z);
  }

  lemma BackTogether(a: int, b: int, c: int)
    requires 0 <= a < 256 && 0 <= b < 256 && 0 <= c < 256
    ensures var (w, x, y, z) := (a / 4, a % 4 * 16 + b / 16, b % 16 * 4 + c / 64, c % 64);
            && w * 4 + x / 16 == a && x % 16 * 16 + y / 4 == b && y % 4 * 64 + z == c
  {
  }

  lemma GroupValues(chunk: seq<Byte>)
    requires 1 <= |chunk| <= 3
    ensures |Group(chunk)| == |chunk| + 1
    ensures forall i :: 0 <= i < |Group(chunk)| ==> Value(Group(chunk)[i]) == Sextet(Triple(chunk), i)
  {
    hide Value, Sextet;
    forall i | 0 <= i < |Group(chunk)| ensures Value(Group(chunk)[i]) == Sextet(Triple(chunk), i) {
      SymbolValue(Sextet(Triple(chunk), i));
    }
  }

  lemma GroupBack(chunk: seq<Byte>)
    requires 1 <= |chunk| <= 3
    ensures |Group(chunk)| == |chunk| + 1 && (forall i :: 0 <= i < |Group(chunk)| ==> InAlphabet(Group(chunk)[i]))
    ensures Ungroup(Group(chunk)) == chunk
  {
    hide Value, Sextet, Group;
    GroupValues(chunk);
    var g := Group(chunk);
    var a: int := chunk[0];
    var b: int := if |chunk| > 1 then chunk[1] else 0;
    var c: int := if |chunk| > 2 then chunk[2] else 0;
    assert Triple(chunk) == a * 65536 + b * 256 + c;
    hide Triple;
    Regrouped(a, b, c);
    assert Value(g[0]) == a / 4 && Value(g[1]) == a % 4 * 16 + b / 16;
    assert |chunk| > 1 ==> Value(g[2]) == b % 16 * 4 + c / 64;
    assert |chunk| > 2 ==> Value(g[3]) == c % 64;
    BackTogether(a, b, c);
    UngroupIs(g, a, b, c);
  }

  lemma UngroupIs(g: string, a: Byte, b: Byte, c: Byte)
    requires 2 <= |g| <= 4 && (forall i :: 0 <= i < |g| ==> InAlphabet(g[i]))
    requires Value(g[0]) * 4 + Value(g[1]) / 16 == a
    requires |g| > 2 ==> Value(g[1]) % 16 * 16 + Value(g[2]) / 4 == b
    requires |g| > 3 ==> Value(g[2]) % 4 * 64 + Value(g[3]) == c
    ensures Ungroup(g) == [a, b, c][..|g| - 1]
  {
    hide Value;
  }

  /** The decoder recovers every byte string, and every character is in the alphabet. */
  lemma {:induction false} DecodesBack(bytes: seq<Byte>)
    ensures forall i :: 0 <= i < |Encode(bytes)| ==> InAlphabet(Encode(bytes)[i])
    ensures |Encode(bytes)| != 1
    ensures Decode(Encode(bytes)) == Some(bytes)
  {
    hide Group, Ungroup, InAlphabet;
    if bytes == [] {
    } else if |bytes| <= 3 {
      GroupBack(bytes);
    } else {
      var (g, rest) := (Group(bytes[..3]), Encode(bytes[3..]));
      GroupBack(bytes[..3]);
      DecodesBack(bytes[3..]);
      var s := g + rest;
      assert s[..4] == g && s[4..] == rest;
      assert bytes == bytes[..3] + bytes[3..];
      assert |rest| > 0 by { NonEmpty(bytes[3..]); }
    }
  }

  lemma NonEmpty(bytes: seq<Byte>)
    requires bytes != []
    ensures Encode(bytes) != ""
  {
  }

  /** The length is four thirds of the input's, rounded up: 43 for 32 bytes. */
  lemma {:induction false} EncodedLength(bytes: seq<Byte>)
    ensures |Encode(bytes)| == (4 * |bytes| + 2) / 3
    ensures |bytes| == 32 ==> |Encode(bytes)| == 43
  {
    if |bytes| > 3 {
      EncodedLength(bytes[3..]);
    }
  }

  // ---- the encoder's loop ---------------------------------------------------------------

  method EncodeGroup(chunk: seq<Byte>) returns (out: string)
    requires 1 <= |chunk| <= 3
    ensures out == Group(chunk)
  {
    var triple := Triple(chunk);
    var indices := [Sextet(triple, 0), Sextet(triple, 1), Sextet(triple, 2), Sextet(triple, 3)];
    var emit := |chunk| + 1;
    out := "";
    for i := 0 to emit
      invariant out == Group(chunk)[..i]
    {
      out := out + [ALPHABET[indices[i]]];
    }
  }

  method Base64UrlNoPad(bytes: seq<Byte>) returns (out: string)
    ensures out == Encode(bytes)
  {
    hide Group;
    out := "";
    var i := 0;
    while i < |bytes|
      invariant 0 <= i <= |bytes| && out + Encode(bytes[i..]) == Encode(bytes)
      decreases |bytes| - i
    {
      var end := if i + 3 <= |bytes| then i + 3 else |bytes|;
      var group := EncodeGroup(bytes[i..end]);
      if |bytes| - i <= 3 {
        assert bytes[i..end] == bytes[i..] && bytes[end..] == [];
      } else {
        assert bytes[i..][..3] == bytes[i..end] && bytes[i..][3..] == bytes[end..];
      }
      out := out + group;
      i := end;
    }
  }
}
