/**
 Rendering a task notification as XML. Escaping uses the five predefined
 entities of section 4.6 of XML 1.0 (Fifth Edition).
 */
module Announcement {
  import opened Basics

  // ----- escaping -----

  /** Replaces every occurrence of one character. */
  function Replace(s: string, c: char, to: string): string {
    if |s| == 0 then "" else (if s[0] == c then to else [s[0]]) + Replace(s[1..], c, to)
  }

  function EscapeXml(s: string): string {
    Replace(Replace(Replace(Replace(Replace(s, '&', "&amp;"), '<', "&lt;"), '>', "&gt;"), '"', "&quot;"), '\'', "&apos;")
  }

  function EscapeChar(c: char): string {
    match c
    case '&' => "&amp;"
    case '<' => "&lt;"
    case '>' => "&gt;"
    case '"' => "&quot;"
    case '\'' => "&apos;"
    case _ => [c]
  }

  function EscapeEach(s: string): string {
    if |s| == 0 then "" else EscapeChar(s[0]) + EscapeEach(s[1..])
  }

  lemma {:induction false} ReplaceConcat(a: string, b: string, c: char, to: string)
    ensures Replace(a + b, c, to) == Replace(a, c, to) + Replace(b, c, to)
  {
    if |a| == 0 {
      assert a + b == b;
    } else {
      assert (a + b)[1..] == a[1..] + b;
      ReplaceConcat(a[1..], b, c, to);
      assert (if a[0] == c then to else [a[0]]) + (Replace(a[1..], c, to) + Replace(b, c, to))
          == ((if a[0] == c then to else [a[0]]) + Replace(a[1..], c, to)) + Replace(b, c, to);
    }
  }

  lemma {:induction false} ReplaceAbsent(s: string, c: char, to: string)
    requires c !in s
    ensures Replace(s, c, to) == s
  {
    if |s| > 0 { ReplaceAbsent(s[1..], c, to); }
  }

  lemma ReplaceOne(x: char, c: char, to: string)
    ensures Replace([x], c, to) == if x == c then to else [x]
  {
    assert [x][1..] == "" && Replace("", c, to) == "";
  }

  lemma EscapeConcat(a: string, b: string)
    ensures EscapeXml(a + b) == EscapeXml(a) + EscapeXml(b)
  {
    var a1, b1 := Replace(a, '&', "&amp;"), Replace(b, '&', "&amp;");
    ReplaceConcat(a, b, '&', "&amp;");
    var a2, b2 := Replace(a1, '<', "&lt;"), Replace(b1, '<', "&lt;");
    ReplaceConcat(a1, b1, '<', "&lt;");
    var a3, b3 := Replace(a2, '>', "&gt;"), Replace(b2, '>', "&gt;");
    ReplaceConcat(a2, b2, '>', "&gt;");
    var a4, b4 := Replace(a3, '"', "&quot;"), Replace(b3, '"', "&quot;");
    ReplaceConcat(a3, b3, '"', "&quot;");
    ReplaceConcat(a4, b4, '\'', "&apos;");
  }

  lemma EscapeOne(c: char)
    ensures EscapeXml([c]) == EscapeChar(c)
  {
    hide Replace;
    ReplaceOne(c, '&', "&amp;");
    if c == '&' {
      ReplaceAbsent("&amp;", '<', "&lt;");
      ReplaceAbsent("&amp;", '>', "&gt;");
      ReplaceAbsent("&amp;", '"', "&quot;");
      ReplaceAbsent("&amp;", '\'', "&apos;");
    } else {
      ReplaceOne(c, '<', "&lt;");
      if c == '<' {
        ReplaceAbsent("&lt;", '>', "&gt;");
        ReplaceAbsent("&lt;", '"', "&quot;");
        ReplaceAbsent("&lt;", '\'', "&apos;");
      } else {
        ReplaceOne(c, '>', "&gt;");
        if c == '>' {
          ReplaceAbsent("&gt;", '"', "&quot;");
          ReplaceAbsent("&gt;", '\'', "&apos;");
        } else {
          ReplaceOne(c, '"', "&quot;");
          if c == '"' { ReplaceAbsent("&quot;", '\'', "&apos;"); } else { ReplaceOne(c, '\'', "&apos;"); }
        }
      }
    }
  }

  /** The five replacements in a row equal one pass that maps each character. */
  lemma {:induction false} SequentialIsOnePass(s: string)
    ensures EscapeXml(s) == EscapeEach(s)
  {
    hide EscapeXml, EscapeChar;
    if |s| == 0 {
      EscapeEmpty();
    } else {
      assert s == [s[0]] + s[1..];
      EscapeConcat([s[0]], s[1..]);
      EscapeOne(s[0]);
      SequentialIsOnePass(s[1..]);
    }
  }

  lemma EscapeEmpty()
    ensures EscapeXml("") == ""
  {
  }

  // ----- unescaping -----

  /** The character an entity at the front stands for, and the entity's length. */
  function Entity(s: string): Option<(char, nat)> {
    if "&amp;" <= s then Some(('&', 5))
    else if "&lt;" <= s then Some(('<', 4))
    else if "&gt;" <= s then Some(('>', 4))
    else if "&quot;" <= s then Some(('"', 6))
    else if "&apos;" <= s then Some(('\'', 6))
    else None
  }

  function Unescape(s: string): string
    decreases |s|
  {
    if |s| == 0 then ""
    else match Entity(s)
      case Some((c, n)) => [c] + Unescape(s[n..])
      case None => [s[0]] + Unescape(s[1..])
  }

  lemma NotPrefix(a: string, s: string, k: nat)
    requires k < |a| && (k < |s| ==> a[k] != s[k])
    ensures !(a <= s)
  {
  }

  lemma UnescapeChar(c: char, rest: string)
    ensures Unescape(EscapeChar(c) + rest) == [c] + Unescape(rest)
  {
    var s := EscapeChar(c) + rest;
    if c == '&' {
      assert "&amp;" <= s && s[5..] == rest;
    } else if c == '<' {
      NotPrefix("&amp;", s, 1);
      assert "&lt;" <= s && s[4..] == rest;
    } else if c == '>' {
      NotPrefix("&amp;", s, 1);
      NotPrefix("&lt;", s, 1);
      assert "&gt;" <= s && s[4..] == rest;
    } else if c == '"' {
      NotPrefix("&amp;", s, 1);
      NotPrefix("&lt;", s, 1);
      NotPrefix("&gt;", s, 1);
      assert "&quot;" <= s && s[6..] == rest;
    } else if c == '\'' {
      NotPrefix("&amp;", s, 2);
      NotPrefix("&lt;", s, 1);
      NotPrefix("&gt;", s, 1);
      NotPrefix("&quot;", s, 1);
      assert "&apos;" <= s && s[6..] == rest;
    } else {
      NotPrefix("&amp;", s, 0);
      NotPrefix("&lt;", s, 0);
      NotPrefix("&gt;", s, 0);
      NotPrefix("&quot;", s, 0);
      NotPrefix("&apos;", s, 0);
      assert s[1..] == rest;
    }
  }

  /** Unescaping inverts escaping, for every text. */
  lemma {:induction false} UnescapeInverts(s: string)
    ensures Unescape(EscapeXml(s)) == s
  {
    hide EscapeXml, EscapeChar, Unescape;
    SequentialIsOnePass(s);
    if |s| > 0 {
      SequentialIsOnePass(s[1..]);
      UnescapeChar(s[0], EscapeEach(s[1..]));
      UnescapeInverts(s[1..]);
    } else {
      UnescapeEmpty();
    }
  }

  lemma UnescapeEmpty()
    ensures Unescape("") == ""
  {
  }

  predicate Markup(c: char) { c == '<' || c == '>' || c == '"' || c == '\'' }

  /** Escaped text holds no markup character. */
  lemma {:induction false} EscapedIsPlain(s: string, c: char)
    requires Markup(c)
    ensures c !in EscapeXml(s)
  {
    hide EscapeXml;
    SequentialIsOnePass(s);
    if |s| > 0 {
      EscapedIsPlain(s[1..], c);
      SequentialIsOnePass(s[1..]);
      assert c !in EscapeChar(s[0]);
    } else {
      EscapeEmpty();
    }
  }

  // ----- rendering -----

  /** The labels in the order of the sorted map. */
  datatype Notification = Notification(kind: string, status: Option<string>, labels: seq<(string, string)>, summary: string, hint: string)

  datatype RenderInput = RenderInput(kind: string, summary: string, status: Option<string>,
                                     labels: seq<(string, string)>, rewriteHint: Option<string>)

  const DEFAULT_HINT := "Rewrite this internal task result before showing it to the user."

  const OPEN := "<task-notification>\n"
  const CLOSE := "</task-notification>"
  const KIND := "  <kind>"
  const KIND_END := "</kind>\n"
  const STATUS := "  <status>"
  const STATUS_END := "</status>\n"
  const LABEL := "  <label key=\""
  const LABEL_MIDDLE := "\">"
  const LABEL_END := "</label>\n"
  const SUMMARY := "  <summary>"
  const SUMMARY_END := "</summary>\n"
  const HINT := "  <rewrite-hint>"
  const HINT_END := "</rewrite-hint>\n"

  function Element(open: string, text: string, close: string, rest: string): string {
    open + (EscapeXml(text) + (close + rest))
  }

  function Label(key: string, value: string, rest: string): string {
    LABEL + (EscapeXml(key) + (LABEL_MIDDLE + (EscapeXml(value) + (LABEL_END + rest))))
  }

  function Labels(labels: seq<(string, string)>, rest: string): string {
    if |labels| == 0 then rest else Label(labels[0].0, labels[0].1, Labels(labels[1..], rest))
  }

  function Effective(input: RenderInput): Notification {
    Notification(input.kind, input.status, input.labels, input.summary,
        if input.rewriteHint.Some? then input.rewriteHint.value else DEFAULT_HINT)
  }

  function Tail(n: Notification): string {
    Element(SUMMARY, n.summary, SUMMARY_END, Element(HINT, n.hint, HINT_END, CLOSE))
  }

  function Middle(n: Notification): string {
    var rest := Labels(n.labels, Tail(n));
    if n.status.Some? then Element(STATUS, n.status.value, STATUS_END, rest) else rest
  }

  function Rendered(n: Notification): string {
    OPEN + Element(KIND, n.kind, KIND_END, Middle(n))
  }

  lemma {:induction false} LabelsSnoc(labels: seq<(string, string)>, key: string, value: string, rest: string)
    ensures Labels(labels + [(key, value)], rest) == Labels(labels, Label(key, value, rest))
  {
    if |labels| == 0 {
      assert ([] + [(key, value)])[1..] == [];
      assert labels + [(key, value)] == [(key, value)];
    } else {
      assert (labels + [(key, value)])[1..] == labels[1..] + [(key, value)];
      LabelsSnoc(labels[1..], key, value, rest);
    }
  }

  /** What follows the labels can be taken out of them. */
  lemma {:induction false} LabelsThen(labels: seq<(string, string)>, rest: string)
    ensures Labels(labels, rest) == Labels(labels, "") + rest
  {
    hide EscapeXml;
    if |labels| > 0 {
      LabelsThen(labels[1..], rest);
      var k, v := EscapeXml(labels[0].0), EscapeXml(labels[0].1);
      var inner := Labels(labels[1..], "");
      assert LABEL + (k + (LABEL_MIDDLE + (v + (LABEL_END + (inner + rest))))) == (LABEL + (k + (LABEL_MIDDLE + (v + (LABEL_END + inner))))) + rest;
    }
  }

  /** One line per label, in map order. */
  method RenderLabels(labels: seq<(string, string)>) returns (lines: string)
    ensures lines == Labels(labels, "")
  {
    hide EscapeXml;
    lines := "";
    for i := 0 to |labels|
      invariant lines == Labels(labels[..i], "")
    {
      var (key, value) := labels[i];
      assert labels[..i + 1] == labels[..i] + [(key, value)];
      LabelsSnoc(labels[..i], key, value, "");
      LabelsThen(labels[..i], Label(key, value, ""));
      LabelPieces(lines, EscapeXml(key), EscapeXml(value));
      lines := lines + LABEL + EscapeXml(key) + LABEL_MIDDLE + EscapeXml(value) + LABEL_END;
    }
    assert labels[..|labels|] == labels;
  }

  /** Builds the text piece after piece. */
  method Render(input: RenderInput) returns (body: string)
    ensures body == Rendered(Effective(input))
  {
    hide EscapeXml, Labels, Tail, Rendered;
    var n := Effective(input);
    body := OPEN + KIND + EscapeXml(input.kind) + KIND_END;
    if input.status.Some? {
      body := body + STATUS + EscapeXml(input.status.value) + STATUS_END;
    }
    HeadThen(input, body);
    LabelsThen(input.labels, Tail(n));
    var lines := RenderLabels(input.labels);
    var tail := RenderTail(input.summary, input.rewriteHint);
    body := body + (lines + tail);
  }

  /** Summary and hint, piece after piece. */
  method RenderTail(summary: string, rewriteHint: Option<string>) returns (tail: string)
    ensures forall n: Notification :: n.summary == summary && n.hint == (if rewriteHint.Some? then rewriteHint.value else DEFAULT_HINT) ==> tail == Tail(n)
  {
    hide EscapeXml;
    var hint := if rewriteHint.Some? then rewriteHint.value else DEFAULT_HINT;
    tail := SUMMARY + EscapeXml(summary) + SUMMARY_END;
    tail := tail + HINT + EscapeXml(hint) + HINT_END;
    TailPieces(EscapeXml(summary), EscapeXml(hint));
    tail := tail + CLOSE;
  }

  lemma TailPieces(summary: string, hint: string)
    ensures SUMMARY + summary + SUMMARY_END + HINT + hint + HINT_END + CLOSE
         == SUMMARY + (summary + (SUMMARY_END + (HINT + (hint + (HINT_END + CLOSE)))))
  {
  }

  lemma LabelPieces(lines: string, key: string, value: string)
    ensures lines + LABEL + key + LABEL_MIDDLE + value + LABEL_END == lines + (LABEL + (key + (LABEL_MIDDLE + (value + (LABEL_END + "")))))
  {
  }

  lemma HeadThen(input: RenderInput, head: string)
    requires head == (if input.status.Some? then OPEN + KIND + EscapeXml(input.kind) + KIND_END + STATUS + EscapeXml(input.status.value) + STATUS_END
                      else OPEN + KIND + EscapeXml(input.kind) + KIND_END)
    ensures Rendered(Effective(input)) == head + Labels(input.labels, Tail(Effective(input)))
  {
    hide EscapeXml, Labels, Tail;
    var rest := Labels(input.labels, Tail(Effective(input)));
    var k := EscapeXml(input.kind);
    if input.status.Some? {
      var t := EscapeXml(input.status.value);
      assert OPEN + (KIND + (k + (KIND_END + (STATUS + (t + (STATUS_END + rest)))))) == OPEN + KIND + k + KIND_END + STATUS + t + STATUS_END + rest;
    } else {
      assert OPEN + (KIND + (k + (KIND_END + rest))) == OPEN + KIND + k + KIND_END + rest;
    }
  }

  // ----- parsing -----

  function Strip(s: string, lit: string): Option<string> { if lit <= s then Some(s[|lit|..]) else None }

  /** Splits at the first occurrence of a character. */
  function Until(s: string, c: char): (string, string) {
    if |s| == 0 || s[0] == c then ("", s)
    else var (a, b) := Until(s[1..], c); ([s[0]] + a, b)
  }

  /** Reads one element whose text ends at the first markup character. */
  function ReadText(s: string, open: string, stop: char, close: string): Option<(string, string)> {
    match Strip(s, open)
    case None => None
    case Some(t) =>
      var (text, rest) := Until(t, stop);
      match Strip(rest, close)
      case None => None
      case Some(more) => Some((Unescape(text), more))
  }

  function ReadLabels(s: string, fuel: nat): Option<(seq<(string, string)>, string)>
    decreases fuel
  {
    if !(LABEL <= s) then Some(([], s))
    else if fuel == 0 then None
    else match ReadText(s, LABEL, '"', LABEL_MIDDLE)
      case None => None
      case Some((key, t)) =>
        match ReadText(t, "", '<', LABEL_END)
        case None => None
        case Some((value, more)) =>
          match ReadLabels(more, fuel - 1)
          case None => None
          case Some((labels, rest)) => Some(([(key, value)] + labels, rest))
  }

  function ReadStatus(s: string): Option<(Option<string>, string)> {
    if !(STATUS <= s) then Some((None, s))
    else match ReadText(s, STATUS, '<', STATUS_END)
      case None => None
      case Some((status, rest)) => Some((Some(status), rest))
  }

  function ReadTail(s: string): Option<(string, string)> {
    match ReadText(s, SUMMARY, '<', SUMMARY_END)
    case None => None
    case Some((summary, t)) =>
      match ReadText(t, HINT, '<', HINT_END)
      case None => None
      case Some((hint, rest)) => if rest == CLOSE then Some((summary, hint)) else None
  }

  /** Reads a notification; `fuel` bounds the number of labels by the length of the text. */
  function Parse(s: string): Option<Notification> {
    match Strip(s, OPEN)
    case None => None
    case Some(s1) =>
      match ReadText(s1, KIND, '<', KIND_END)
      case None => None
      case Some((kind, s2)) =>
        match ReadStatus(s2)
        case None => None
        case Some((status, s3)) =>
          match ReadLabels(s3, |s|)
          case None => None
          case Some((labels, s4)) =>
            match ReadTail(s4)
            case None => None
            case Some((summary, hint)) => Some(Notification(kind, status, labels, summary, hint))
  }

  lemma StripPrefix(lit: string, rest: string)
    ensures Strip(lit + rest, lit) == Some(rest)
  {
  }

  lemma {:induction false} UntilStops(a: string, b: string, c: char)
    requires c !in a && |b| > 0 && b[0] == c
    ensures Until(a + b, c) == (a, b)
  {
    if |a| == 0 {
      assert a + b == b;
    } else {
      assert (a + b)[1..] == a[1..] + b && (a + b)[0] == a[0];
      assert c !in a[1..];
      UntilStops(a[1..], b, c);
      assert [a[0]] + a[1..] == a;
    }
  }

  lemma ReadsText(open: string, text: string, stop: char, close: string, rest: string)
    requires Markup(stop) && |close| > 0 && close[0] == stop
    ensures ReadText(open + (EscapeXml(text) + (close + rest)), open, stop, close) == Some((text, rest))
  {
    hide EscapeXml, Unescape;
    var escaped := EscapeXml(text);
    StripPrefix(open, escaped + (close + rest));
    EscapedIsPlain(text, stop);
    UntilStops(escaped, close + rest, stop);
    StripPrefix(close, rest);
    UnescapeInverts(text);
  }

  lemma ReadsLabel(key: string, value: string, rest: string, fuel: nat)
    requires fuel > 0
    ensures ReadLabels(Label(key, value, rest), fuel) ==
            match ReadLabels(rest, fuel - 1) case None => None case Some((labels, more)) => Some(([(key, value)] + labels, more))
  {
    hide EscapeXml, ReadText;
    var inner := EscapeXml(value) + (LABEL_END + rest);
    ReadsText(LABEL, key, '"', LABEL_MIDDLE, inner);
    ReadsText("", value, '<', LABEL_END, rest);
    assert "" + inner == inner;
    assert LABEL <= Label(key, value, rest);
  }

  lemma {:induction false} ReadsLabels(labels: seq<(string, string)>, rest: string, fuel: nat)
    requires fuel >= |labels| && !(LABEL <= rest)
    ensures ReadLabels(Labels(labels, rest), fuel) == Some((labels, rest))
  {
    hide Label, ReadText;
    if |labels| > 0 {
      ReadsLabels(labels[1..], rest, fuel - 1);
      ReadsLabel(labels[0].0, labels[0].1, Labels(labels[1..], rest), fuel);
      assert [labels[0]] + labels[1..] == labels;
    }
  }

  lemma {:induction false} LabelsAreLong(labels: seq<(string, string)>, rest: string)
    ensures |Labels(labels, rest)| >= |labels| + |rest|
  {
    hide EscapeXml;
    if |labels| > 0 { LabelsAreLong(labels[1..], rest); }
  }

  lemma ReadsTail(n: Notification)
    ensures ReadTail(Tail(n)) == Some((n.summary, n.hint)) && !(LABEL <= Tail(n)) && !(STATUS <= Tail(n))
  {
    hide EscapeXml, ReadText;
    var inner := Element(HINT, n.hint, HINT_END, CLOSE);
    ReadsText(SUMMARY, n.summary, '<', SUMMARY_END, inner);
    ReadsText(HINT, n.hint, '<', HINT_END, CLOSE);
    NotPrefix(LABEL, Tail(n), 3);
    NotPrefix(STATUS, Tail(n), 4);
  }

  lemma StatusIsNotLabel(labels: seq<(string, string)>, rest: string)
    requires !(STATUS <= rest)
    ensures !(STATUS <= Labels(labels, rest))
  {
    hide EscapeXml;
    if |labels| > 0 { NotPrefix(STATUS, Labels(labels, rest), 3); }
  }

  lemma ReadsStatus(n: Notification)
    ensures ReadStatus(Middle(n)) == Some((n.status, Labels(n.labels, Tail(n))))
  {
    hide EscapeXml, ReadText, Tail, Labels;
    var rest := Labels(n.labels, Tail(n));
    ReadsTail(n);
    StatusIsNotLabel(n.labels, Tail(n));
    if n.status.Some? {
      ReadsText(STATUS, n.status.value, '<', STATUS_END, rest);
      assert STATUS <= Middle(n);
    }
  }

  lemma RenderedIsLong(n: Notification)
    ensures |Rendered(n)| >= |n.labels|
  {
    hide EscapeXml, Tail;
    LabelsAreLong(n.labels, Tail(n));
  }

  /** Parsing a rendered notification recovers kind, status, every label, summary and the effective hint. */
  lemma ParseInvertsRender(n: Notification)
    ensures Parse(Rendered(n)) == Some(n)
  {
    hide EscapeXml, ReadText, Middle, ReadStatus, ReadLabels, ReadTail, Tail, Labels;
    StripPrefix(OPEN, Element(KIND, n.kind, KIND_END, Middle(n)));
    ReadsText(KIND, n.kind, '<', KIND_END, Middle(n));
    ReadsStatus(n);
    ReadsTail(n);
    RenderedIsLong(n);
    ReadsLabels(n.labels, Tail(n), |Rendered(n)|);
  }
}
