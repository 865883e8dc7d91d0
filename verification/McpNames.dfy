/** Canonical names of MCP tools: printing, parsing, and exactly when they invert each other. */
module McpNames {
  import opened Basics

  const SEPARATOR := "__"
  const PREFIX := "mcp__"

  predicate NameCharacter(c: char) {
    'a' <= c <= 'z' || 'A' <= c <= 'Z' || '0' <= c <= '9' || c == '_' || c == '-'
  }

  predicate SeparatorAt(s: string, i: nat) { i + 1 < |s| && s[i] == '_' && s[i + 1] == '_' }

  /** One to 64 characters of the pattern, without the reserved separator. */
  predicate ValidName(name: string) {
    && 1 <= |name| <= 64
    && (forall i :: 0 <= i < |name| ==> NameCharacter(name[i]))
    && (forall i :: 0 <= i < |name| ==> !SeparatorAt(name, i))
  }

  datatype NameError = Invalid(name: string) | ReservedSeparator(name: string)

  function Validate(name: string): Result<(), NameError> {
    if |name| == 0 || |name| > 64 || exists i :: 0 <= i < |name| && !NameCharacter(name[i]) then Err(Invalid(name))
    else if exists i :: 0 <= i < |name| && SeparatorAt(name, i) then Err(ReservedSeparator(name))
    else Ok(())
  }

  function Print(server: string, tool: string): Result<string, NameError> {
    match Validate(server)
    case Err(e) => Err(e)
    case Ok(_) =>
      match Validate(tool)
      case Err(e) => Err(e)
      case Ok(_) => Ok(PREFIX + server + SEPARATOR + tool)
  }

  /** The first separator splits the text. */
  function SplitOnce(s: string, i: nat): (r: Option<(string, string)>)
    requires i <= |s|
    decreases |s| - i
  {
    if i + 1 >= |s| then None
    else if SeparatorAt(s, i) then Some((s[..i], s[i + 2..]))
    else SplitOnce(s, i + 1)
  }

  function Parse(name: string): Option<(string, string)> {
    if PREFIX <= name then SplitOnce(name[|PREFIX|..], 0) else None
  }

  lemma {:induction false} SplitAt(s: string, i: nat, k: nat)
    requires i <= k && SeparatorAt(s, k) && forall j :: i <= j < k ==> !SeparatorAt(s, j)
    ensures SplitOnce(s, i) == Some((s[..k], s[k + 2..]))
    decreases k - i
  {
    if i < k { SplitAt(s, i + 1, k); }
  }

  predicate EndsInUnderscore(s: string) { |s| > 0 && s[|s| - 1] == '_' }

  /** What parsing a printed name returns: a trailing underscore of the server moves to the tool. */
  lemma ParsePrinted(server: string, tool: string)
    requires ValidName(server) && ValidName(tool)
    ensures Print(server, tool).Ok?
    ensures Parse(Print(server, tool).value) ==
            if EndsInUnderscore(server) then Some((server[..|server| - 1], "_" + tool)) else Some((server, tool))
  {
    var rest := server + SEPARATOR + tool;
    var name := PREFIX + server + SEPARATOR + tool;
    assert name == PREFIX + rest && name[|PREFIX|..] == rest;
    var n := |server|;
    var k := if EndsInUnderscore(server) then n - 1 else n;
    forall j | 0 <= j < k ensures !SeparatorAt(rest, j) {
      assert !SeparatorAt(server, j);
      assert rest[j] == server[j];
      if j + 1 < n { assert rest[j + 1] == server[j + 1]; }
    }
    SplitAt(rest, 0, k);
    assert rest[..n] == server && rest[n + 2..] == tool;
    if EndsInUnderscore(server) {
      assert rest[..n - 1] == server[..n - 1];
      assert rest[n + 1..] == "_" + tool;
    }
  }

  /** Parsing inverts printing exactly when the server does not end in an underscore. */
  lemma ParseInvertsPrint(server: string, tool: string)
    requires ValidName(server) && ValidName(tool)
    ensures Parse(Print(server, tool).value) == Some((server, tool)) <==> !EndsInUnderscore(server)
  {
    ParsePrinted(server, tool);
  }

  /** Two pairs print alike exactly when they are equal or an underscore at the boundary changed sides. */
  lemma PrintCollidesExactly(server: string, tool: string, server': string, tool': string)
    requires ValidName(server) && ValidName(tool) && ValidName(server') && ValidName(tool')
    ensures Print(server, tool) == Print(server', tool') <==>
            (server, tool) == (server', tool') || Shifted(server, tool, server', tool') || Shifted(server', tool', server, tool)
  {
    ParsePrinted(server, tool);
    ParsePrinted(server', tool');
    if Print(server, tool) == Print(server', tool') {
      if EndsInUnderscore(server) && EndsInUnderscore(server') {
        assert server == server[..|server| - 1] + "_" && server' == server'[..|server'| - 1] + "_";
        assert tool == ("_" + tool)[1..] && tool' == ("_" + tool')[1..];
      } else if EndsInUnderscore(server) {
        assert server == server' + "_";
      } else if EndsInUnderscore(server') {
        assert server' == server + "_";
      }
    }
    if Shifted(server, tool, server', tool') { ShiftedAlike(server, tool, server', tool'); }
    if Shifted(server', tool', server, tool) { ShiftedAlike(server', tool', server, tool); }
  }

  predicate Shifted(server: string, tool: string, server': string, tool': string) {
    server == server' + "_" && tool' == "_" + tool
  }

  lemma ShiftedAlike(server: string, tool: string, server': string, tool': string)
    requires Shifted(server, tool, server', tool')
    ensures PREFIX + server + SEPARATOR + tool == PREFIX + server' + SEPARATOR + tool'
  {
    assert "_" + SEPARATOR == SEPARATOR + "_";
    assert server + SEPARATOR + tool == server' + ("_" + SEPARATOR) + tool;
    assert server' + SEPARATOR + tool' == server' + (SEPARATOR + "_") + tool;
  }

  /** Hence printing is injective on servers that do not end in an underscore. */
  lemma PrintIsInjective(server: string, tool: string, server': string, tool': string)
    requires ValidName(server) && ValidName(tool) && ValidName(server') && ValidName(tool')
    requires !EndsInUnderscore(server) && !EndsInUnderscore(server') && Print(server, tool) == Print(server', tool')
    ensures server == server' && tool == tool'
  {
    ParsePrinted(server, tool);
    ParsePrinted(server', tool');
  }

  /** A collision: two different tools with one canonical name. */
  lemma PrintCollides()
    ensures ValidName("a_") && ValidName("b") && ValidName("a") && ValidName("_b")
    ensures Print("a_", "b") == Print("a", "_b") && Print("a_", "b").Ok?
  {
    assert Shifted("a_", "b", "a", "_b");
    ShiftedAlike("a_", "b", "a", "_b");
    ParsePrinted("a_", "b");
  }

  // ----- digests -----

  const HEX := "0123456789abcdef"

  function Nibble(c: char): Option<nat> {
    if '0' <= c <= '9' then Some((c - '0') as nat) else if 'a' <= c <= 'f' then Some((c - 'a') as nat + 10) else None
  }

  method EncodeDigest(bytes: seq<nat>) returns (output: string)
    requires |bytes| == 32 && forall i :: 0 <= i < 32 ==> bytes[i] < 256
    ensures |output| == 64 && forall i :: 0 <= i < 32 ==> output[2 * i] == HEX[bytes[i] / 16] && output[2 * i + 1] == HEX[bytes[i] % 16]
  {
    output := "";
    for k := 0 to 32
      invariant |output| == 2 * k && forall i :: 0 <= i < k ==> output[2 * i] == HEX[bytes[i] / 16] && output[2 * i + 1] == HEX[bytes[i] % 16]
    {
      output := output + [HEX[bytes[k] / 16], HEX[bytes[k] % 16]];
    }
  }

  predicate IsHex(c: char) { Nibble(c).Some? }

  method DecodeDigest(value: string) returns (r: Option<seq<nat>>)
    ensures r.Some? <==> |value| == 64 && forall i :: 0 <= i < 64 ==> IsHex(value[i])
    ensures r.Some? ==> |r.value| == 32 && forall i :: 0 <= i < 32 ==>
      r.value[i] == Nibble(value[2 * i]).value * 16 + Nibble(value[2 * i + 1]).value < 256
  {
    if |value| != 64 { return None; }
    var bytes: seq<nat> := [];
    for k := 0 to 32
      invariant |bytes| == k && (forall i :: 0 <= i < 2 * k ==> IsHex(value[i]))
      invariant forall i :: 0 <= i < k ==> bytes[i] == Nibble(value[2 * i]).value * 16 + Nibble(value[2 * i + 1]).value < 256
    {
      var high, low := Nibble(value[2 * k]), Nibble(value[2 * k + 1]);
      if high.None? { assert !IsHex(value[2 * k]); return None; }
      if low.None? { assert !IsHex(value[2 * k + 1]); return None; }
      bytes := bytes + [high.value * 16 + low.value];
    }
    r := Some(bytes);
  }

  lemma HexNibble(n: nat)
    requires n < 16
    ensures Nibble(HEX[n]) == Some(n)
  {
  }

  /** Decoding an encoded digest returns its bytes. */
  method DigestRoundTrip(bytes: seq<nat>) returns (same: Option<seq<nat>>)
    requires |bytes| == 32 && forall i :: 0 <= i < 32 ==> bytes[i] < 256
    ensures same == Some(bytes)
  {
    var text := EncodeDigest(bytes);
    forall j | 0 <= j < 64 ensures IsHex(text[j]) {
      var i := j / 2;
      HexNibble(bytes[i] / 16);
      HexNibble(bytes[i] % 16);
      assert j == 2 * i || j == 2 * i + 1;
    }
    same := DecodeDigest(text);
    forall i | 0 <= i < 32 ensures same.value[i] == bytes[i] {
      HexNibble(bytes[i] / 16);
      HexNibble(bytes[i] % 16);
    }
    assert same.value == bytes;
  }
}
