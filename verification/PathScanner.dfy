/**
 The scanner that hides private absolute paths in text shown to users: where a
 path starts, how far it reaches, and what is left of the text.

 Text is a sequence of characters; the markers are ASCII, so byte and character
 windows agree.
 */
module PathScanner {
  import opened Basics
  import Text

  const REDACTED := "[REDACTED]"

  // ----- markers -----

  predicate StartsWith(s: string, i: nat, marker: string) {
    i + |marker| <= |s| && s[i..i + |marker|] == marker
  }

  predicate IsAsciiLetter(c: char) { 'a' <= c <= 'z' || 'A' <= c <= 'Z' }

  predicate IsWindowsAt(s: string, i: nat) {
    i + 2 < |s| && IsAsciiLetter(s[i]) && s[i + 1] == ':' && (s[i + 2] == '\\' || s[i + 2] == '/')
  }

  predicate IsStart(s: string, i: nat) {
    StartsWith(s, i, "/Users/") || StartsWith(s, i, "/home/") || StartsWith(s, i, "/private/var/") || IsWindowsAt(s, i)
  }

  /** The text contains a marker somewhere. */
  ghost predicate ContainsPrivatePath(s: string) {
    exists i :: 0 <= i < |s| && IsStart(s, i)
  }

  // ----- the extent of a path -----

  predicate IsDelimiter(c: char) {
    c == '"' || c == '\'' || c == ')' || c == ']' || c == '}' || c == '<' || c == '>'
  }

  function SkipBlanks(s: string, i: nat): (r: nat)
    requires i <= |s|
    ensures i <= r <= |s|
    decreases |s| - i
  {
    if i < |s| && (s[i] == ' ' || s[i] == '\t') then SkipBlanks(s, i + 1) else i
  }

  function TokenEnd(s: string, i: nat): (r: nat)
    requires i <= |s|
    ensures i <= r <= |s|
    decreases |s| - i
  {
    if i < |s| && !Text.IsWhitespace(s[i]) && !IsDelimiter(s[i]) then TokenEnd(s, i + 1) else i
  }

  /** After a blank the path goes on if the next token looks like part of a path. */
  predicate LooksLikePath(token: string) {
    '/' in token || '\\' in token || (|token| > 0 && token[0] == '.')
  }

  predicate Continues(s: string, start: nat)
    requires start <= |s|
  {
    var t := SkipBlanks(s, start);
    LooksLikePath(s[t..TokenEnd(s, t)])
  }

  function PathEnd(s: string, i: nat): (r: nat)
    requires i <= |s|
    ensures i <= r <= |s|
    decreases |s| - i
  {
    if i == |s| || IsDelimiter(s[i]) then i
    else if Text.IsWhitespace(s[i]) && !Continues(s, i + 1) then i
    else PathEnd(s, i + 1)
  }

  /** A path reaches at least past its first character, so the scan makes progress. */
  lemma PathIsNotEmpty(s: string, i: nat)
    requires IsStart(s, i)
    ensures i < |s| && PathEnd(s, i) > i
  {
    assert s[i] == '/' || IsAsciiLetter(s[i]) by {
      if StartsWith(s, i, "/Users/") { assert s[i] == s[i..i + 7][0]; }
      if StartsWith(s, i, "/home/") { assert s[i] == s[i..i + 6][0]; }
      if StartsWith(s, i, "/private/var/") { assert s[i] == s[i..i + 13][0]; }
    }
    assert !IsDelimiter(s[i]) && !Text.IsWhitespace(s[i]);
  }

  // ----- redaction -----

  /** What the scan makes of the text from `i` on. */
  function Redact(s: string, i: nat): string
    requires i <= |s|
    decreases |s| - i
  {
    if i == |s| then ""
    else if IsStart(s, i) then
      PathIsNotEmpty(s, i);
      REDACTED + Redact(s, PathEnd(s, i))
    else [s[i]] + Redact(s, i + 1)
  }

  method PathContinuesAfterWhitespace(s: string, start: nat) returns (r: bool)
    requires start <= |s|
    ensures r == Continues(s, start)
  {
    var index := start;
    while index < |s|
      invariant start <= index <= |s| && SkipBlanks(s, index) == SkipBlanks(s, start)
    {
      if !(s[index] == ' ' || s[index] == '\t') { break; }
      index := index + 1;
    }
    var tokenStart := index;
    while index < |s|
      invariant tokenStart <= index <= |s| && TokenEnd(s, index) == TokenEnd(s, tokenStart)
    {
      if Text.IsWhitespace(s[index]) || IsDelimiter(s[index]) { break; }
      index := index + 1;
    }
    r := LooksLikePath(s[tokenStart..index]);
  }

  method PrivatePathEnd(s: string, start: nat) returns (index: nat)
    requires start <= |s|
    ensures index == PathEnd(s, start)
  {
    index := start;
    while index < |s|
      invariant start <= index <= |s| && PathEnd(s, index) == PathEnd(s, start)
    {
      if IsDelimiter(s[index]) { break; }
      if Text.IsWhitespace(s[index]) {
        var goesOn := PathContinuesAfterWhitespace(s, index + 1);
        if !goesOn { break; }
      }
      index := index + 1;
    }
  }

  lemma RedactStep(s: string, i: nat)
    requires i < |s|
    ensures IsStart(s, i) ==> PathEnd(s, i) > i && Redact(s, i) == REDACTED + Redact(s, PathEnd(s, i))
    ensures !IsStart(s, i) ==> Redact(s, i) == [s[i]] + Redact(s, i + 1)
  {
    if IsStart(s, i) { PathIsNotEmpty(s, i); }
  }

  lemma NothingLeft(s: string)
    ensures Redact(s, |s|) == ""
  {
  }

  /** The scanning loop, proved against the recursive description. */
  method RedactPrivatePaths(s: string) returns (redacted: string)
    ensures redacted == Redact(s, 0)
  {
    hide Redact, IsStart, PathEnd;
    NothingLeft(s);
    redacted := "";
    var index := 0;
    while index < |s|
      invariant 0 <= index <= |s| && redacted + Redact(s, index) == Redact(s, 0)
    {
      RedactStep(s, index);
      if IsStart(s, index) {
        redacted := redacted + REDACTED;
        index := PrivatePathEnd(s, index);
      } else {
        redacted := redacted + [s[index]];
        index := index + 1;
      }
    }
  }

  // ----- no marker is left -----

  lemma StartShifts(a: string, b: string, k: nat)
    requires k >= |a|
    ensures IsStart(a + b, k) <==> IsStart(b, k - |a|)
  {
    assert (a + b)[|a|..] == b;
    forall marker: string ensures StartsWith(a + b, k, marker) <==> StartsWith(b, k - |a|, marker) {
      if k + |marker| <= |a + b| { assert (a + b)[k..k + |marker|] == b[k - |a|..k - |a| + |marker|]; }
    }
  }

  predicate MarkerCharacter(c: char) { IsAsciiLetter(c) || c == '/' || c == ':' || c == '\\' }

  /** The length of the marker that starts at `i`. */
  lemma MarkerAt(s: string, i: nat) returns (m: nat)
    requires IsStart(s, i)
    ensures 0 < m && i + m <= |s| && '[' !in s[i..i + m] && forall c :: c in s[i..i + m] ==> MarkerCharacter(c)
    ensures forall t: string, j: nat :: j + m <= |t| && t[j..j + m] == s[i..i + m] ==> IsStart(t, j)
  {
    if StartsWith(s, i, "/Users/") { m := 7; }
    else if StartsWith(s, i, "/home/") { m := 6; }
    else if StartsWith(s, i, "/private/var/") { m := 13; }
    else {
      m := 3;
      forall t: string, j: nat | j + m <= |t| && t[j..j + m] == s[i..i + m] ensures IsStart(t, j) {
        assert t[j] == t[j..j + m][0] && t[j + 1] == t[j..j + m][1] && t[j + 2] == t[j..j + m][2];
        assert s[i] == s[i..i + m][0] && s[i + 1] == s[i..i + m][1] && s[i + 2] == s[i..i + m][2];
      }
    }
  }

  /** Up to the first bracket the output repeats the text. */
  lemma {:induction false} PlainPrefix(s: string, i: nat, m: nat)
    requires i <= |s| && m <= |Redact(s, i)| && '[' !in Redact(s, i)[..m]
    ensures i + m <= |s| && Redact(s, i)[..m] == s[i..i + m]
    decreases |s| - i
  {
    hide IsStart, PathEnd, Redact;
    if m > 0 {
      var out := Redact(s, i);
      if i == |s| { NothingLeft(s); } else { RedactStep(s, i); }
      assert out[..m][0] == out[0];
      if i < |s| && !IsStart(s, i) {
        var rest := Redact(s, i + 1);
        assert out[..m] == [s[i]] + rest[..m - 1];
        assert forall c :: c in rest[..m - 1] ==> c in out[..m];
        PlainPrefix(s, i + 1, m - 1);
      }
    }
  }

  /** The output of the scan contains no private-path marker. */
  lemma {:induction false} NoMarkerLeft(s: string, i: nat, k: nat)
    requires i <= |s|
    ensures !IsStart(Redact(s, i), k)
    decreases |s| - i
  {
    var out := Redact(s, i);
    if i < |s| {
      if IsStart(s, i) {
        PathIsNotEmpty(s, i);
        var rest := Redact(s, PathEnd(s, i));
        if k >= |REDACTED| {
          StartShifts(REDACTED, rest, k);
          NoMarkerLeft(s, PathEnd(s, i), k - |REDACTED|);
        } else {
          InsideReplacement(rest, k);
        }
      } else if k > 0 {
        StartShifts([s[i]], Redact(s, i + 1), k);
        NoMarkerLeft(s, i + 1, k - 1);
      } else if IsStart(out, 0) {
        var m := MarkerAt(out, 0);
        assert out[0..m] == out[..m];
        PlainPrefix(s, i, m);
      }
    }
  }

  lemma InsideReplacement(rest: string, k: nat)
    requires k < |REDACTED|
    ensures !IsStart(REDACTED + rest, k)
  {
    var out := REDACTED + rest;
    assert out[k] == REDACTED[k] && out[k] != '/';
    assert k + 1 < |REDACTED| ==> out[k + 1] == REDACTED[k + 1] && out[k + 1] != ':';
    FirstCharacter(out, k, "/Users/");
    FirstCharacter(out, k, "/home/");
    FirstCharacter(out, k, "/private/var/");
  }

  lemma FirstCharacter(s: string, i: nat, marker: string)
    requires |marker| > 0
    ensures StartsWith(s, i, marker) ==> s[i] == marker[0]
  {
    if StartsWith(s, i, marker) { assert s[i] == s[i..i + |marker|][0]; }
  }

  /** Clean text is kept as it is. */
  lemma {:induction false} CleanIsKept(s: string, i: nat)
    requires i <= |s| && forall k :: i <= k < |s| ==> !IsStart(s, k)
    ensures Redact(s, i) == s[i..]
    decreases |s| - i
  {
    if i < |s| { CleanIsKept(s, i + 1); }
  }

  /** After one scan no private path is left, and scanning again changes nothing. */
  lemma ScanIsIdempotent(s: string)
    ensures !ContainsPrivatePath(Redact(s, 0))
    ensures Redact(Redact(s, 0), 0) == Redact(s, 0)
    ensures Redact(s, 0) == s <== !ContainsPrivatePath(s)
  {
    var out := Redact(s, 0);
    forall k | 0 <= k < |out| ensures !IsStart(out, k) { NoMarkerLeft(s, 0, k); }
    CleanIsKept(out, 0);
    if !ContainsPrivatePath(s) { CleanIsKept(s, 0); }
  }

  // ----- what is kept and what is hidden -----

  datatype Piece = Kept(text: string) | Hidden(text: string)

  function Pieces(s: string, i: nat): seq<Piece>
    requires i <= |s|
    decreases |s| - i
  {
    if i == |s| then []
    else if IsStart(s, i) then
      PathIsNotEmpty(s, i);
      [Hidden(s[i..PathEnd(s, i)])] + Pieces(s, PathEnd(s, i))
    else [Kept([s[i]])] + Pieces(s, i + 1)
  }

  function Original(pieces: seq<Piece>): string {
    if |pieces| == 0 then "" else pieces[0].text + Original(pieces[1..])
  }

  function Shown(pieces: seq<Piece>): string {
    if |pieces| == 0 then "" else (if pieces[0].Kept? then pieces[0].text else REDACTED) + Shown(pieces[1..])
  }

  lemma {:induction false} PathCovers(s: string, i: nat, m: nat)
    requires i + m <= |s| && forall k :: i <= k < i + m ==> !IsDelimiter(s[k]) && !Text.IsWhitespace(s[k])
    ensures PathEnd(s, i) >= i + m
    decreases m
  {
    if m > 0 { PathCovers(s, i + 1, m - 1); }
  }

  /** The hidden piece holds the whole marker. */
  lemma HiddenIsPath(s: string, i: nat)
    requires IsStart(s, i)
    ensures IsStart(s[i..PathEnd(s, i)], 0)
  {
    var m := MarkerAt(s, i);
    var marker := s[i..i + m];
    forall k | i <= k < i + m ensures !IsDelimiter(s[k]) && !Text.IsWhitespace(s[k]) { assert s[k] == marker[k - i]
        && MarkerCharacter(marker[k - i]); }
    PathCovers(s, i, m);
    assert s[i..PathEnd(s, i)][0..m] == marker;
  }

  /** The text splits into kept and hidden pieces; the output shows them in order, and every hidden piece begins with a marker. */
  lemma {:induction false} OutputKeepsTheRest(s: string, i: nat)
    requires i <= |s|
    ensures Original(Pieces(s, i)) == s[i..] && Shown(Pieces(s, i)) == Redact(s, i)
    ensures HiddenArePaths(Pieces(s, i))
    decreases |s| - i
  {
    hide IsStart, PathEnd;
    if i < |s| {
      RedactStep(s, i);
      var next := if IsStart(s, i) then PathEnd(s, i) else i + 1;
      if IsStart(s, i) { HiddenIsPath(s, i); }
      OutputKeepsTheRest(s, next);
      assert Pieces(s, i)[1..] == Pieces(s, next);
      assert s[i..] == s[i..next] + s[next..];
    }
  }

  ghost predicate HiddenArePaths(pieces: seq<Piece>) {
    forall k :: 0 <= k < |pieces| && pieces[k].Hidden? ==> IsStart(pieces[k].text, 0)
  }
}
