/** The dashboard's console colouring: `ansiToHtml` turns SGR sequences (section 8.3.117 of
    ECMA-48) into span tags, and `parseLogLine` marks up the log prefixes. */
module Ansi {
  import opened Text

  const ESC := '\U{1B}'

  /** JavaScript's `s.replace(/c/g, t)` for a single character. */
  function ReplaceAll(s: string, c: char, t: string): string {
    if s == "" then "" else (if s[0] == c then t else [s[0]]) + ReplaceAll(s[1..], c, t)
  }

  function Escape(text: string): string {
    ReplaceAll(ReplaceAll(ReplaceAll(text, '&', "&amp;"), '<', "&lt;"), '>', "&gt;")
  }

  // SGR sequences

  predicate IsParam(c: char) {
    '0' <= c <= '9' || c == ';'
  }

  /** Where the parameters at `i` end. */
  function ParamEnd(s: string, i: nat): (j: nat)
    requires i <= |s|
    ensures i <= j <= |s| && (j < |s| ==> !IsParam(s[j])) && forall k :: i <= k < j ==> IsParam(s[k])
    decreases |s| - i
  {
    if i == |s| || !IsParam(s[i]) then i else ParamEnd(s, i + 1)
  }

  /** Whether the text starts with a control sequence introducer. */
  predicate Introduced(s: string) {
    |s| >= 2 && s[0] == ESC && s[1] == '['
  }

  /** The length of the SGR sequence that `s` starts with, or 0. */
  function SgrLength(s: string): (n: nat)
    ensures n <= |s|
  {
    if Introduced(s) then
      var j := ParamEnd(s, 2);
      if j < |s| && s[j] == 'm' then j + 1 else 0
    else 0
  }

  /** The text with exactly its SGR sequences removed. */
  function StripSgr(text: string): string
    decreases |text|
  {
    if text == "" then ""
    else if SgrLength(text) > 0 then StripSgr(text[SgrLength(text)..])
    else [text[0]] + StripSgr(text[1..])
  }

  // Styles

  const COLORS := ["#2e3440", "#bf616a", "#a3be8c", "#ebcb8b", "#81a1c1", "#b48ead", "#88c0d0", "#e5e9f0"]
  const BRIGHT := ["#4c566a", "#d08770", "#a3be8c", "#ebcb8b", "#8fbcbb", "#b48ead", "#88c0d0", "#eceff4"]

  function Split(s: string): (codes: seq<string>)
    ensures codes != []
    decreases |s|
  {
    var k := FirstIndex(s, ';');
    if k == |s| then [s] else [s[..k]] + Split(s[k + 1..])
  }

  function ParseNat(digits: string): nat {
    if digits == "" then 0
    else
      var d := digits[|digits| - 1];
      10 * ParseNat(digits[..|digits| - 1]) + if '0' <= d <= '9' then d as int - '0' as int else 0
  }

  function CodeStyle(code: nat): string {
    if code == 1 then "font-weight: bold;"
    else if code == 3 then "font-style: italic;"
    else if code == 4 then "text-decoration: underline;"
    else if 30 <= code <= 37 then "color: " + COLORS[code - 30] + ";"
    else if code == 39 then "color: inherit;"
    else if 40 <= code <= 47 then "background-color: " + COLORS[code - 40] + ";"
    else if code == 49 then "background-color: inherit;"
    else if 90 <= code <= 97 then "color: " + BRIGHT[code - 90] + ";"
    else if 100 <= code <= 107 then "background-color: " + BRIGHT[code - 100] + ";"
    else ""
  }

  /** An empty code is not a number and is passed over. */
  function StylePart(code: string): string {
    if code == "" then "" else CodeStyle(ParseNat(code))
  }

  function StyleOf(codes: seq<string>): string {
    if codes == [] then "" else StylePart(codes[0]) + StyleOf(codes[1..])
  }

  // The transducer

  const CLOSE := "</span>"

  function Closes(n: nat): string {
    if n == 0 then "" else CLOSE + Closes(n - 1)
  }

  function OpenTag(style: string): string {
    "<span style=\"" + style + "\">"
  }

  predicate Resets(params: string) {
    params == "" || params == "0"
  }

  /** What a sequence is replaced by, and how many spans are open after it. */
  function Emit(params: string, open: nat): (string, nat) {
    if Resets(params) then (Closes(open), 0)
    else
      var style := StyleOf(Split(params));
      if style != "" then (OpenTag(style), open + 1) else ("", open)
  }

  function Params(s: string): string
    requires SgrLength(s) > 0
  {
    s[2..SgrLength(s) - 1]
  }

  /** The global replacement over an escaped text, with `open` spans open. */
  function Transduce(s: string, open: nat): string
    decreases |s|
  {
    if s == "" then Closes(open)
    else if SgrLength(s) > 0 then
      var (piece, now) := Emit(Params(s), open);
      piece + Transduce(s[SgrLength(s)..], now)
    else [s[0]] + Transduce(s[1..], open)
  }

  function Html(text: string): string {
    Transduce(Escape(text), 0)
  }

  // What a browser makes of the result

  datatype Piece = Text(s: string, length: nat) | Opening(length: nat) | Closing(length: nat) | Broken

  predicate StartsWith(s: string, t: string) {
    |t| <= |s| && s[..|t|] == t
  }

  /** Not a character with a meaning in markup. */
  predicate PlainChar(c: char) {
    c != '<' && c != '>' && c != '&'
  }

  predicate Plain(s: string) {
    forall k :: 0 <= k < |s| ==> PlainChar(s[k])
  }

  predicate Attribute(s: string) {
    Plain(s) && '"' !in s
  }

  const STYLED := "<span style=\""
  const CLASSED := "<span class=\""

  /** A tag that starts with `open` and goes on with one value in quotes. */
  predicate Quoted(tag: string, open: string) {
    && StartsWith(tag, open) && |tag| >= |open| + 2 && tag[|tag| - 2..] == "\">"
    && Attribute(tag[|open|..|tag| - 2])
  }

  /** The opening tags there may be: a span with a style or a class, and no other attribute. */
  predicate SpanTag(tag: string) {
    Quoted(tag, STYLED) || Quoted(tag, CLASSED)
  }

  /** The tag, entity or character that `s` starts with; any tag but `</span>` and such spans is an error. */
  function Token(s: string): (p: Piece)
    requires s != ""
    ensures !p.Broken? ==> 0 < p.length <= |s|
  {
    if s[0] == '<' then
      var k := FirstIndex(s, '>');
      if k == |s| then Broken
      else if s[..k + 1] == CLOSE then Closing(k + 1)
      else if SpanTag(s[..k + 1]) then Opening(k + 1)
      else Broken
    else if s[0] == '&' then Entity(s)
    else Text([s[0]], 1)
  }

  function Entity(s: string): (p: Piece)
    requires s != ""
    ensures p.Text? && 0 < p.length <= |s|
  {
    if |s| >= 5 && s[1] == 'a' && s[2] == 'm' && s[3] == 'p' && s[4] == ';' then Text("&", 5)
    else if |s| >= 4 && s[1] == 'l' && s[2] == 't' && s[3] == ';' then Text("<", 4)
    else if |s| >= 4 && s[1] == 'g' && s[2] == 't' && s[3] == ';' then Text(">", 4)
    else Text([s[0]], 1)
  }

  /** The nesting depth after a token. */
  function After(p: Piece, depth: nat): nat {
    match p
    case Opening(_) => depth + 1
    case Closing(_) => if depth == 0 then 0 else depth - 1
    case _ => depth
  }

  /** The nesting depth after `html`, starting at `depth`; -1 if it ever goes below 0, a tag is cut off, or
      it is neither `</span>` nor a span with one style or class. */
  function Depth(html: string, depth: nat): int
    decreases |html|
  {
    if html == "" then depth
    else
      var p := Token(html);
      if p.Broken? || (p.Closing? && depth == 0) then -1 else Depth(html[p.length..], After(p, depth))
  }

  predicate Balanced(html: string) {
    Depth(html, 0) == 0
  }

  /** The text with tags erased and entities decoded. */
  function Visible(html: string): string
    decreases |html|
  {
    if html == "" then ""
    else
      var p := Token(html);
      if p.Broken? then "" else (if p.Text? then p.s else "") + Visible(html[p.length..])
  }

  // Escaping and matching commute

  function EscapeChar(c: char): string {
    if c == '&' then "&amp;" else if c == '<' then "&lt;" else if c == '>' then "&gt;" else [c]
  }

  lemma Assoc(a: string, b: string, c: string)
    ensures a + (b + c) == (a + b) + c
  {
  }

  lemma {:induction false} ReplaceAppend(a: string, b: string, c: char, t: string)
    ensures ReplaceAll(a + b, c, t) == ReplaceAll(a, c, t) + ReplaceAll(b, c, t)
    decreases |a|
  {
    if a == "" {
      assert a + b == b;
    } else {
      ReplaceAppend(a[1..], b, c, t);
      assert (a + b)[1..] == a[1..] + b;
      Assoc(if a[0] == c then t else [a[0]], ReplaceAll(a[1..], c, t), ReplaceAll(b, c, t));
    }
  }

  lemma {:induction false} ReplaceAbsent(s: string, c: char, t: string)
    requires c !in s
    ensures ReplaceAll(s, c, t) == s
    decreases |s|
  {
    if s != "" {
      ReplaceAbsent(s[1..], c, t);
    }
  }

  /** The three passes act character by character. */
  lemma EscapeStep(text: string)
    requires text != ""
    ensures Escape(text) == EscapeChar(text[0]) + Escape(text[1..])
  {
    var c, rest := text[0], text[1..];
    var amp := if c == '&' then "&amp;" else [c];
    var rest1 := ReplaceAll(rest, '&', "&amp;");
    var lt := if c == '<' then "&lt;" else amp;
    ReplaceAppend(amp, rest1, '<', "&lt;");
    assert ReplaceAll(amp, '<', "&lt;") == lt by {
      if c == '<' {
        assert amp[1..] == "";
      } else {
        ReplaceAbsent(amp, '<', "&lt;");
      }
    }
    ReplaceAppend(lt, ReplaceAll(rest1, '<', "&lt;"), '>', "&gt;");
    assert ReplaceAll(lt, '>', "&gt;") == EscapeChar(c) by {
      if c == '>' {
        assert lt[1..] == "";
      } else {
        ReplaceAbsent(lt, '>', "&gt;");
      }
    }
  }

  /** What the three passes come to. */
  function Encoded(text: string): string {
    if text == "" then "" else EscapeChar(text[0]) + Encoded(text[1..])
  }

  lemma {:induction false} EscapeEncodes(text: string)
    ensures Escape(text) == Encoded(text)
    decreases |text|
  {
    if text != "" {
      EscapeStep(text);
      EscapeEncodes(text[1..]);
    }
  }

  predicate AllParams(p: string) {
    forall k :: 0 <= k < |p| ==> IsParam(p[k])
  }

  lemma {:induction false} EncodedRun(p: string, r: string)
    requires AllParams(p)
    ensures Encoded(p + r) == p + Encoded(r)
    decreases |p|
  {
    if p == "" {
      assert p + r == r && p + Encoded(r) == Encoded(r);
    } else {
      EncodedRun(p[1..], r);
      assert (p + r)[1..] == p[1..] + r;
      Uncons(p, Encoded(r));
    }
  }

  /** Whether a control sequence introducer with given parameters makes an SGR sequence depends on
      the next character. */
  lemma SgrIs(p: string, r: string)
    requires AllParams(p) && (r != "" ==> !IsParam(r[0]))
    ensures var s := [ESC, '['] + (p + r);
            if r != "" && r[0] == 'm' then SgrLength(s) == 3 + |p| && Params(s) == p && s[3 + |p|..] == r[1..]
            else SgrLength(s) == 0
  {
    var s := [ESC, '['] + (p + r);
    assert forall k :: 0 <= k < |p| ==> s[2 + k] == p[k];
    assert r != "" ==> s[2 + |p|] == r[0];
    assert ParamEnd(s, 2) == 2 + |p|;
    assert s[2..2 + |p|] == p;
  }

  lemma EncodedHead(text: string)
    requires text != ""
    ensures Encoded(text) != "" && Encoded(text)[0] == EscapeChar(text[0])[0]
    ensures EscapeChar(text[0]) == [text[0]] ==> Encoded(text)[1..] == Encoded(text[1..])
  {
  }

  lemma IntroducerStays(text: string)
    requires Introduced(text)
    ensures Encoded(text) == [ESC, '['] + Encoded(text[2..])
  {
  }

  lemma AfterBracket(text: string) returns (p: string, r: string)
    requires Introduced(text)
    ensures text == [ESC, '['] + (p + r) && Encoded(text) == [ESC, '['] + (p + Encoded(r))
    ensures AllParams(p) && (r != "" ==> !IsParam(r[0]))
  {
    IntroducerStays(text);
    var body := text[2..];
    var n := ParamEnd(body, 0);
    p, r := body[..n], body[n..];
    assert body == p + r;
    EncodedRun(p, r);
  }

  lemma EncodedAfterBracket(text: string)
    requires Introduced(text)
    ensures SgrLength(Encoded(text)) == SgrLength(text)
    ensures var n := SgrLength(text);
            n > 0 ==> Params(Encoded(text)) == Params(text) && Encoded(text)[n..] == Encoded(text[n..])
  {
    var p, r := AfterBracket(text);
    if r != "" {
      EncodedHead(r);
    }
    SameSequence(p, r, Encoded(r));
    if SgrLength(text) > 0 {
      SgrIs(p, r);
      assert text[3 + |p|..] == r[1..];
    }
  }

  lemma SameSequence(p: string, r: string, e: string)
    requires AllParams(p) && (r == "" <==> e == "")
    requires r != "" ==> !IsParam(r[0]) && !IsParam(e[0]) && (r[0] == 'm' <==> e[0] == 'm')
    ensures var s, t := [ESC, '['] + (p + r), [ESC, '['] + (p + e);
            && SgrLength(t) == SgrLength(s)
            && (SgrLength(s) > 0 ==> Params(t) == Params(s) && t[SgrLength(s)..] == e[1..])
  {
    SgrIs(p, r);
    SgrIs(p, e);
  }

  lemma NoIntroducer(text: string)
    requires !Introduced(text)
    ensures !Introduced(Encoded(text))
  {
  }

  /** A text starts with an SGR sequence exactly when its escaped form does, and with the same one. */
  lemma EncodedKeepsSgr(text: string)
    ensures SgrLength(Encoded(text)) == SgrLength(text)
    ensures var n := SgrLength(text);
            n > 0 ==> Params(Encoded(text)) == Params(text) && Encoded(text)[n..] == Encoded(text[n..])
  {
    if Introduced(text) {
      EncodedAfterBracket(text);
    } else {
      NoIntroducer(text);
    }
  }

  /** The transducer as it acts on the original text. */
  function TransduceRaw(text: string, open: nat): string
    decreases |text|
  {
    if text == "" then Closes(open)
    else if SgrLength(text) > 0 then
      var (piece, now) := Emit(Params(text), open);
      piece + TransduceRaw(text[SgrLength(text)..], now)
    else EscapeChar(text[0]) + TransduceRaw(text[1..], open)
  }

  lemma PassOne(w: string, s: string, open: nat)
    requires w != "" && w[0] != ESC
    ensures Transduce(w + s, open) == [w[0]] + Transduce(w[1..] + s, open)
  {
    assert (w + s)[1..] == w[1..] + s;
    assert SgrLength(w + s) == 0;
  }

  lemma {:induction false} PassThrough(w: string, s: string, open: nat)
    requires ESC !in w
    ensures Transduce(w + s, open) == w + Transduce(s, open)
    decreases |w|
  {
    if w == "" {
      assert w + s == s;
    } else {
      PassThrough(w[1..], s, open);
      PassOne(w, s, open);
      Uncons(w, Transduce(s, open));
    }
  }

  lemma {:induction false} TransduceOnText(text: string, open: nat)
    ensures Transduce(Encoded(text), open) == TransduceRaw(text, open)
    decreases |text|
  {
    if text != "" {
      EncodedKeepsSgr(text);
      if SgrLength(text) > 0 {
        TransduceOnText(text[SgrLength(text)..], Emit(Params(text), open).1);
      } else {
        TransduceOnText(text[1..], open);
        if text[0] == ESC {
          assert Encoded(text)[1..] == Encoded(text[1..]);
        } else {
          PassThrough(EscapeChar(text[0]), Encoded(text[1..]), open);
        }
      }
    }
  }

  // Pieces of markup, as a browser reads them

  lemma FirstOf(a: string, c: char, b: string)
    requires c !in a
    ensures FirstIndex(a + [c] + b, c) == |a|
  {
    var s := a + [c] + b;
    assert s[|a|] == c;
    assert forall j :: 0 <= j < |a| ==> s[j] == a[j];
  }

  lemma SpanTagEnds(tag: string)
    requires SpanTag(tag)
    ensures |tag| > 7 && tag[0] == '<' && tag[1] == 's' && tag[|tag| - 1] == '>' && '>' !in tag[..|tag| - 1]
  {
    var open := if Quoted(tag, STYLED) then STYLED else CLASSED;
    assert '>' !in open && |open| == 13;
    assert tag == open + tag[|open|..|tag| - 2] + "\">";
    forall k | 0 <= k < |tag| - 1 ensures tag[k] != '>' {
      if k < |open| {
        assert tag[k] == open[k];
      } else if k < |tag| - 2 {
        assert tag[k] == tag[|open|..|tag| - 2][k - |open|];
      }
    }
  }

  /** An opening tag, whatever follows it. */
  lemma OpeningToken(tag: string, r: string)
    requires SpanTag(tag)
    ensures tag + r != "" && Token(tag + r) == Opening(|tag|)
    ensures (tag + r)[|tag|..] == r && (tag + r)[..|tag|] == tag
  {
    SpanTagEnds(tag);
    FirstOf(tag[..|tag| - 1], '>', r);
    assert tag == tag[..|tag| - 1] + ['>'];
    assert tag[1] != CLOSE[1];
  }

  lemma OpeningPiece(tag: string, r: string, depth: nat)
    requires SpanTag(tag)
    ensures Depth(tag + r, depth) == Depth(r, depth + 1) && Visible(tag + r) == Visible(r)
  {
    OpeningToken(tag, r);
  }

  lemma ClosingToken(r: string)
    ensures Token(CLOSE + r) == Closing(7) && (CLOSE + r)[7..] == r
  {
    FirstOf("</span", '>', r);
    assert CLOSE + r == "</span" + ['>'] + r;
    assert (CLOSE + r)[..7] == CLOSE;
  }

  lemma ClosingPiece(r: string, depth: nat)
    ensures Depth(CLOSE + r, depth + 1) == Depth(r, depth) && Visible(CLOSE + r) == Visible(r)
  {
    ClosingToken(r);
  }

  lemma CharPiece(c: char, r: string, depth: nat)
    ensures Depth(EscapeChar(c) + r, depth) == Depth(r, depth) && Visible(EscapeChar(c) + r) == [c] + Visible(r)
  {
    CharToken(c, r);
  }

  /** A character, whatever follows it. */
  lemma CharToken(c: char, r: string)
    ensures EscapeChar(c) != "" && Token(EscapeChar(c) + r) == Text([c], |EscapeChar(c)|)
    ensures (EscapeChar(c) + r)[|EscapeChar(c)|..] == r
  {
    var s := EscapeChar(c) + r;
    assert s[|EscapeChar(c)|..] == r;
    if c == '&' {
      assert s[..5] == "&amp;";
    } else if c == '<' {
      assert s[..4] == "&lt;" && s[2] != 'm';
      assert !StartsWith(s, "&amp;") by { assert s[1] == 'l'; }
    } else if c == '>' {
      assert s[..4] == "&gt;";
      assert !StartsWith(s, "&amp;") && !StartsWith(s, "&lt;") by { assert s[1] == 'g'; }
    } else {
      assert s[0] == c;
    }
  }

  lemma Uncons(m: string, r: string)
    requires m != ""
    ensures m + r == [m[0]] + (m[1..] + r)
  {
  }

  lemma {:induction false} PlainPiece(m: string, r: string, depth: nat)
    requires Plain(m)
    ensures Depth(m + r, depth) == Depth(r, depth) && Visible(m + r) == m + Visible(r)
    decreases |m|
  {
    if m == "" {
      assert m + r == r;
    } else {
      var rest := m[1..] + r;
      Uncons(m, r);
      Uncons(m, Visible(r));
      assert m[0] in m && forall c <- m[1..] :: c in m;
      PlainPiece(m[1..], r, depth);
      CharPiece(m[0], rest, depth);
    }
  }

  function CloseOnto(n: nat, r: string): string {
    if n == 0 then r else CLOSE + CloseOnto(n - 1, r)
  }

  lemma {:induction false} ClosesOnto(n: nat, r: string)
    ensures Closes(n) + r == CloseOnto(n, r)
    decreases n
  {
    if n > 0 {
      ClosesOnto(n - 1, r);
      assert Closes(n) + r == CLOSE + (Closes(n - 1) + r);
    }
  }

  lemma CloseBefore(rest: string, n: nat, depth: int, shown: string)
    requires Depth(rest, n) == depth && Visible(rest) == shown
    ensures Depth(CLOSE + rest, n + 1) == depth && Visible(CLOSE + rest) == shown
  {
    ClosingPiece(rest, n);
  }

  lemma {:induction false} CloseOntoPiece(n: nat, r: string, end: int, shown: string)
    requires Depth(r, 0) == end && Visible(r) == shown
    ensures Depth(CloseOnto(n, r), n) == end && Visible(CloseOnto(n, r)) == shown
    decreases n
  {
    if n > 0 {
      CloseOntoPiece(n - 1, r, end, shown);
      CloseBefore(CloseOnto(n - 1, r), n - 1, end, shown);
    }
  }

  lemma ClosesThen(n: nat, r: string)
    ensures Depth(Closes(n) + r, n) == Depth(r, 0) && Visible(Closes(n) + r) == Visible(r)
  {
    ClosesOnto(n, r);
    CloseOntoPiece(n, r, Depth(r, 0), Visible(r));
  }

  // Styles are harmless inside the attribute

  lemma ColorsPlain(k: nat)
    requires k < 8
    ensures Attribute(COLORS[k]) && Attribute(BRIGHT[k])
  {
  }

  lemma DeclarationPlain(name: string, value: string)
    requires Attribute(name) && Attribute(value)
    ensures Attribute(name + value + ";")
  {
  }

  lemma FontsPlain()
    ensures Attribute("font-weight: bold;") && Attribute("font-style: italic;")
  {
  }

  lemma DecorationPlain()
    ensures Attribute("text-decoration: underline;")
  {
  }

  lemma InheritPlain()
    ensures Attribute("color: inherit;") && Attribute("background-color: inherit;")
  {
  }

  lemma NamesPlain()
    ensures Attribute("color: ") && Attribute("background-color: ") && Attribute("")
  {
  }

  lemma CodeStylePlain(code: nat)
    ensures Attribute(CodeStyle(code))
  {
    FontsPlain();
    DecorationPlain();
    InheritPlain();
    NamesPlain();
    if 30 <= code <= 37 {
      ColorsPlain(code - 30);
      DeclarationPlain("color: ", COLORS[code - 30]);
    } else if 40 <= code <= 47 {
      ColorsPlain(code - 40);
      DeclarationPlain("background-color: ", COLORS[code - 40]);
    } else if 90 <= code <= 97 {
      ColorsPlain(code - 90);
      DeclarationPlain("color: ", BRIGHT[code - 90]);
    } else if 100 <= code <= 107 {
      ColorsPlain(code - 100);
      DeclarationPlain("background-color: ", BRIGHT[code - 100]);
    }
  }

  lemma {:induction false} StylePlain(codes: seq<string>)
    ensures Attribute(StyleOf(codes))
    decreases |codes|
  {
    if codes != [] {
      CodeStylePlain(ParseNat(codes[0]));
      StylePlain(codes[1..]);
    }
  }

  lemma QuotedIs(open: string, value: string)
    requires Attribute(value)
    ensures Quoted(open + value + "\">", open)
  {
    var tag := open + value + "\">";
    assert tag[..|open|] == open && tag[|open|..|tag| - 2] == value && tag[|tag| - 2..] == "\">";
  }

  lemma OpenTagPiece(style: string, r: string, depth: nat)
    requires Attribute(style)
    ensures Depth(OpenTag(style) + r, depth) == Depth(r, depth + 1) && Visible(OpenTag(style) + r) == Visible(r)
  {
    QuotedIs(STYLED, style);
    OpeningPiece(OpenTag(style), r, depth);
  }

  lemma EmitPiece(params: string, open: nat, r: string)
    ensures var (piece, now) := Emit(params, open);
            Depth(piece + r, open) == Depth(r, now) && Visible(piece + r) == Visible(r)
  {
    if Resets(params) {
      ClosesThen(open, r);
    } else {
      var style := StyleOf(Split(params));
      StylePlain(Split(params));
      if style != "" {
        OpenTagPiece(style, r, open);
      } else {
        assert "" + r == r;
      }
    }
  }

  lemma {:induction false} RawCorrect(text: string, open: nat)
    ensures Depth(TransduceRaw(text, open), open) == 0 && Visible(TransduceRaw(text, open)) == StripSgr(text)
    decreases |text|
  {
    if text == "" {
      ClosesThen(open, "");
      assert Closes(open) + "" == Closes(open);
    } else if SgrLength(text) > 0 {
      var (piece, now) := Emit(Params(text), open);
      RawCorrect(text[SgrLength(text)..], now);
      EmitPiece(Params(text), open, TransduceRaw(text[SgrLength(text)..], now));
    } else {
      RawCorrect(text[1..], open);
      CharPiece(text[0], TransduceRaw(text[1..], open), open);
    }
  }

  /** For every input, the span tags of the output are balanced, and erasing tags and decoding
      entities gives the input with exactly its SGR sequences removed. */
  lemma HtmlCorrect(text: string)
    ensures Balanced(Html(text)) && Visible(Html(text)) == StripSgr(text)
  {
    EscapeEncodes(text);
    TransduceOnText(text, 0);
    RawCorrect(text, 0);
  }

  // parseLogLine

  datatype Rule = Timestamp | Check | Cross | Warn | Info | Step

  /** JavaScript's `\s`. */
  predicate IsSpace(c: char) {
    || '\t' <= c <= '\r' || c == ' ' || c == '\U{A0}' || c == '\U{1680}' || '\U{2000}' <= c <= '\U{200A}'
    || c in {'\U{2028}', '\U{2029}', '\U{202F}', '\U{205F}', '\U{3000}', '\U{FEFF}'}
  }

  /** What `.` does not match. */
  predicate IsLineEnd(c: char) {
    c in {'\n', '\r', '\U{2028}', '\U{2029}'}
  }

  /** Where the white space at `i` ends. */
  function Spaces(s: string, i: nat): (j: nat)
    requires i <= |s|
    ensures i <= j <= |s| && forall k :: i <= k < j ==> PlainChar(s[k])
    decreases |s| - i
  {
    if i == |s| || !IsSpace(s[i]) then i else Spaces(s, i + 1)
  }

  function Digits(s: string, i: nat): (j: nat)
    requires i <= |s|
    ensures i <= j <= |s| && forall k :: i <= k < j ==> PlainChar(s[k])
    decreases |s| - i
  {
    if i == |s| || !('0' <= s[i] <= '9') then i else Digits(s, i + 1)
  }

  /** What a rule looks for between the brackets: where it ends if it stands at `i`, else `i`. */
  function Body(rule: Rule, s: string, i: nat): (j: nat)
    requires i <= |s|
    ensures i <= j <= |s| && forall k :: i <= k < j ==> PlainChar(s[k])
  {
    match rule
    case Timestamp =>
      var d := Digits(s, i);
      if d == i || d == |s| || s[d] != '.' then i
      else
        var e := Digits(s, d + 1);
        if e == d + 1 then i else e
    case Check => if i < |s| && s[i] == '✔' then i + 1 else i
    case Cross => if i < |s| && s[i] == 'x' then i + 1 else i
    case Warn => if i < |s| && s[i] == '!' then i + 1 else i
    case Info => if i < |s| && s[i] == 'i' then i + 1 else i
    case Step => if i < |s| && (s[i] == '+' || s[i] == '•') then i + 1 else i
  }

  /** The length of the bracketed prefix of a rule at the start of `s`, or 0. */
  function Bracket(rule: Rule, s: string): (n: nat)
    ensures n <= |s| && forall k :: 0 <= k < n ==> PlainChar(s[k])
  {
    var a := Spaces(s, 0);
    if a == |s| || s[a] != '[' then 0
    else
      var b := Spaces(s, a + 1);
      var c := Body(rule, s, b);
      if c == b then 0
      else
        var d := Spaces(s, c);
        if d == |s| || s[d] != ']' then 0 else d + 1
  }

  /** The length of the leading `<span...>` tags. */
  function HeadLength(s: string): (n: nat)
    ensures n <= |s|
    decreases |s|
  {
    if StartsWith(s, "<span") && FirstIndex(s, '>') < |s| then
      var k := FirstIndex(s, '>') + 1;
      k + HeadLength(s[k..])
    else 0
  }

  /** Whether a rule's regular expression matches the line. */
  predicate Matches(rule: Rule, html: string) {
    var rest := html[HeadLength(html)..];
    var n := Bracket(rule, rest);
    n > 0 && forall c <- rest[n..] :: !IsLineEnd(c)
  }

  function ClassName(rule: Rule): string {
    match rule
    case Timestamp => "term-tstamp"
    case Check => "term-check"
    case Cross => "term-error"
    case Warn => "term-warn"
    case Info => "term-info"
    case Step => "term-step"
  }

  predicate WrapsTail(rule: Rule) {
    rule.Check? || rule.Cross? || rule.Warn?
  }

  function ClassTag(name: string): string {
    "<span class=\"" + name + "\">"
  }

  function Marked(rule: Rule, m: string, tail: string): string {
    ClassTag(ClassName(rule)) + (m + (CLOSE +
      if WrapsTail(rule) then ClassTag(ClassName(rule) + "-text") + (tail + CLOSE) else tail))
  }

  function MarkedRest(rule: Rule, rest: string): string {
    Marked(rule, rest[..Bracket(rule, rest)], rest[Bracket(rule, rest)..])
  }

  function Rewrite(rule: Rule, html: string): string {
    html[..HeadLength(html)] + MarkedRest(rule, html[HeadLength(html)..])
  }

  const RULES := [Timestamp, Check, Cross, Warn, Info, Step]

  function FirstRule(rules: seq<Rule>, html: string): string {
    if rules == [] then html
    else if Matches(rules[0], html) then Rewrite(rules[0], html)
    else FirstRule(rules[1..], html)
  }

  function LogLine(text: string): string {
    FirstRule(RULES, Html(text))
  }

  function Concat(tags: seq<string>): string {
    if tags == [] then "" else tags[0] + Concat(tags[1..])
  }

  lemma LeadingTag(html: string, depth: nat)
    requires StartsWith(html, "<span") && FirstIndex(html, '>') < |html| && Depth(html, depth) >= 0
    ensures var k := FirstIndex(html, '>') + 1;
            SpanTag(html[..k]) && Depth(html[k..], depth + 1) == Depth(html, depth)
  {
    var k := FirstIndex(html, '>') + 1;
    assert html[..5][1] == 's' && html[1] == 's';
    assert k > 1 && html[..k][1] == 's';
    assert html[..k] != CLOSE;
  }

  lemma HeadSplits(html: string, k: nat)
    requires HeadLength(html) > 0 && k == FirstIndex(html, '>') + 1
    ensures StartsWith(html, "<span") && k <= |html| && HeadLength(html) == k + HeadLength(html[k..])
    ensures html[..HeadLength(html)] == html[..k] + html[k..][..HeadLength(html[k..])]
  {
    PrefixSplits(html, k, HeadLength(html[k..]));
  }

  lemma PrefixSplits(s: string, k: nat, n: nat)
    requires k + n <= |s|
    ensures s[..k + n] == s[..k] + s[k..][..n]
  {
  }

  lemma ConcatCons(tag: string, more: seq<string>)
    ensures Concat([tag] + more) == tag + Concat(more)
  {
    assert ([tag] + more)[1..] == more;
  }

  lemma {:induction false} HeadTags(html: string, depth: nat) returns (tags: seq<string>)
    requires Depth(html, depth) >= 0
    ensures Concat(tags) == html[..HeadLength(html)] && forall tag <- tags :: SpanTag(tag)
    decreases |html|
  {
    tags := [];
    if HeadLength(html) > 0 {
      var k := FirstIndex(html, '>') + 1;
      HeadSplits(html, k);
      LeadingTag(html, depth);
      var more := HeadTags(html[k..], depth + 1);
      ConcatCons(html[..k], more);
      tags := [html[..k]] + more;
    }
  }

  lemma OpenBefore(tag: string, mid: string, r: string, depth: nat, end: int, shown: string)
    requires SpanTag(tag) && Depth(mid + r, depth + 1) == end && Visible(mid + r) == shown
    ensures Depth((tag + mid) + r, depth) == end && Visible((tag + mid) + r) == shown
  {
    assert (tag + mid) + r == tag + (mid + r);
    OpeningPiece(tag, mid + r, depth);
  }

  lemma TagBefore(tags: seq<string>, r: string, depth: nat)
    requires tags != [] && SpanTag(tags[0])
    requires var mid := Concat(tags[1..]);
             Depth(mid + r, depth + 1) == Depth(r, depth + |tags|) && Visible(mid + r) == Visible(r)
    ensures Depth(Concat(tags) + r, depth) == Depth(r, depth + |tags|) && Visible(Concat(tags) + r) == Visible(r)
  {
    OpenBefore(tags[0], Concat(tags[1..]), r, depth, Depth(r, depth + |tags|), Visible(r));
  }

  lemma EachTag(tags: seq<string>)
    requires tags != [] && forall tag <- tags :: SpanTag(tag)
    ensures SpanTag(tags[0]) && forall tag <- tags[1..] :: SpanTag(tag)
  {
  }

  /** Opening tags open spans and show nothing, whatever follows them. */
  lemma {:induction false} TagsPiece(tags: seq<string>, r: string, depth: nat)
    requires forall tag <- tags :: SpanTag(tag)
    ensures Depth(Concat(tags) + r, depth) == Depth(r, depth + |tags|) && Visible(Concat(tags) + r) == Visible(r)
    decreases |tags|
  {
    if tags == [] {
      assert Concat(tags) + r == r;
    } else {
      EachTag(tags);
      TagsPiece(tags[1..], r, depth + 1);
      TagBefore(tags, r, depth);
    }
  }

  lemma ClassTagPiece(name: string, r: string, depth: nat)
    requires Attribute(name)
    ensures Depth(ClassTag(name) + r, depth) == Depth(r, depth + 1) && Visible(ClassTag(name) + r) == Visible(r)
  {
    QuotedIs(CLASSED, name);
    OpeningPiece(ClassTag(name), r, depth);
  }

  lemma LongerTag(t: string, close: string, k: nat)
    requires t != "" && k == FirstIndex(t, '>') < |t|
    ensures FirstIndex(t + close, '>') == k && (t + close)[..k + 1] == t[..k + 1]
  {
    assert t == t[..k] + ['>'] + t[k + 1..] && t + close == t[..k] + ['>'] + (t[k + 1..] + close);
    FirstOf(t[..k], '>', t[k + 1..] + close);
  }

  lemma LongerEntity(t: string, close: string)
    requires t != "" && close != "" && close[0] == '<'
    ensures Entity(t + close) == Entity(t)
  {
  }

  lemma Longer(t: string, close: string, p: Piece, rest: string)
    requires t != "" && !Token(t).Broken? && close != "" && close[0] == '<'
    requires p == Token(t) && rest == t[p.length..]
    ensures Token(t + close) == p && (t + close)[p.length..] == rest + close
  {
    if t[0] == '<' {
      LongerTag(t, close, FirstIndex(t, '>'));
    } else {
      LongerEntity(t, close);
    }
  }

  lemma FirstToken(t: string, close: string, depth: nat, end: nat) returns (d: nat, rest: string)
    requires t != "" && Depth(t, depth) == end && close != "" && close[0] == '<'
    ensures Depth(rest, d) == end && |rest| < |t|
    ensures Depth(t + close, depth + 1) == Depth(rest + close, d + 1)
  {
    var p := Token(t);
    rest, d := t[p.length..], After(p, depth);
    SameToken(t, close, depth, p, rest);
  }

  lemma SameToken(t: string, close: string, depth: nat, p: Piece, rest: string)
    requires t != "" && close != "" && close[0] == '<'
    requires p == Token(t) && !p.Broken? && (p.Closing? ==> depth > 0) && rest == t[p.length..]
    ensures Depth(t + close, depth + 1) == Depth(rest + close, After(p, depth) + 1)
  {
    Longer(t, close, p, rest);
  }

  lemma {:induction false} DepthBehind(t: string, close: string, depth: nat, end: nat, last: int)
    requires Depth(t, depth) == end && close != "" && close[0] == '<' && Depth(close, end + 1) == last
    ensures Depth(t + close, depth + 1) == last
    decreases |t|
  {
    if t == "" {
      NothingBefore(t, close, depth);
    } else {
      var d, rest := FirstToken(t, close, depth, end);
      DepthBehind(rest, close, d, end, last);
    }
  }

  lemma NothingBefore(t: string, close: string, depth: nat)
    requires t == ""
    ensures Depth(t, depth) == depth && t + close == close
  {
  }

  lemma {:induction false} VisibleBehind(t: string, close: string, depth: nat)
    requires Depth(t, depth) >= 0 && close != "" && close[0] == '<' && Visible(close) == ""
    ensures Visible(t + close) == Visible(t)
    decreases |t|
  {
    if t == "" {
      assert t + close == close;
    } else {
      var p := Token(t);
      Longer(t, close, p, t[p.length..]);
      VisibleBehind(t[p.length..], close, After(p, depth));
    }
  }

  /** A closing tag put behind a tail that ends cleanly closes the one span put around it. */
  lemma CloseBehind(t: string, depth: nat)
    requires Depth(t, depth) >= 0
    ensures Depth(t + CLOSE, depth + 1) == Depth(t, depth) && Visible(t + CLOSE) == Visible(t)
  {
    CloseLast(Depth(t, depth));
    DepthBehind(t, CLOSE, depth, Depth(t, depth), Depth(t, depth));
    VisibleBehind(t, CLOSE, depth);
  }

  lemma CloseLast(depth: nat)
    ensures Depth(CLOSE, depth + 1) == depth && Visible(CLOSE) == ""
  {
  }

  lemma NamesAreAttributes(rule: Rule)
    ensures Attribute(ClassName(rule)) && Attribute(ClassName(rule) + "-text")
  {
  }

  /** Marking up the bracketed prefix, and possibly the tail, keeps depth and visible text. */
  lemma MarkupPiece(rule: Rule, m: string, tail: string, depth: nat)
    requires Plain(m) && Depth(tail, depth) >= 0
    ensures var marked := Marked(rule, m, tail);
            Depth(marked, depth) == Depth(tail, depth) && Visible(marked) == m + Visible(tail)
  {
    var name := ClassName(rule);
    var last := if WrapsTail(rule) then ClassTag(name + "-text") + (tail + CLOSE) else tail;
    NamesAreAttributes(rule);
    ClassTagPiece(name, m + (CLOSE + last), depth);
    PlainPiece(m, CLOSE + last, depth + 1);
    ClosingPiece(last, depth);
    if WrapsTail(rule) {
      ClassTagPiece(name + "-text", tail + CLOSE, depth);
      CloseBehind(tail, depth);
    }
  }

  lemma Halves(rule: Rule, rest: string) returns (m: string, tail: string)
    ensures rest == m + tail && Plain(m) && MarkedRest(rule, rest) == Marked(rule, m, tail)
  {
    m, tail := rest[..Bracket(rule, rest)], rest[Bracket(rule, rest)..];
  }

  lemma RestCorrect(rule: Rule, rest: string, marked: string, depth: nat)
    requires Depth(rest, depth) >= 0 && marked == MarkedRest(rule, rest)
    ensures Depth(marked, depth) == Depth(rest, depth) && Visible(marked) == Visible(rest)
  {
    var m, tail := Halves(rule, rest);
    PlainPiece(m, tail, depth);
    MarkupPiece(rule, m, tail, depth);
  }

  lemma HeadAndRest(html: string) returns (head: string, rest: string)
    ensures head == html[..HeadLength(html)] && rest == html[HeadLength(html)..] && html == head + rest
  {
    head, rest := html[..HeadLength(html)], html[HeadLength(html)..];
  }

  lemma RewrittenRest(rule: Rule, html: string, head: string, rest: string) returns (marked: string)
    requires head == html[..HeadLength(html)] && rest == html[HeadLength(html)..]
    ensures marked == MarkedRest(rule, rest) && Rewrite(rule, html) == head + marked
  {
    marked := MarkedRest(rule, rest);
  }

  lemma Rejoin(tags: seq<string>, rest: string, marked: string, before: string, after: string, depth: nat)
    requires (forall tag <- tags :: SpanTag(tag)) && depth == |tags|
    requires Depth(rest, depth) >= 0 ==>
               Depth(marked, depth) == Depth(rest, depth) && Visible(marked) == Visible(rest)
    requires before == Concat(tags) + rest && after == Concat(tags) + marked && Balanced(before)
    ensures Balanced(after) && Visible(after) == Visible(before)
  {
    TagsPiece(tags, rest, 0);
    TagsPiece(tags, marked, 0);
    SameBalance(before, after, rest, marked, depth);
  }

  lemma SameBalance(before: string, after: string, rest: string, marked: string, depth: nat)
    requires Depth(before, 0) == Depth(rest, depth) && Visible(before) == Visible(rest)
    requires Depth(after, 0) == Depth(marked, depth) && Visible(after) == Visible(marked)
    requires Depth(rest, depth) >= 0 ==>
               Depth(marked, depth) == Depth(rest, depth) && Visible(marked) == Visible(rest)
    requires Balanced(before)
    ensures Balanced(after) && Visible(after) == Visible(before)
  {
  }

  /** Each of the six rules keeps balance and visible text, although the captured tail may
      close spans that were opened in the captured head. */
  lemma RewriteCorrect(rule: Rule, html: string)
    requires Balanced(html)
    ensures Balanced(Rewrite(rule, html)) && Visible(Rewrite(rule, html)) == Visible(html)
  {
    var tags := HeadTags(html, 0);
    var head, rest := HeadAndRest(html);
    var marked := RewrittenRest(rule, html, head, rest);
    if Depth(rest, |tags|) >= 0 {
      RestCorrect(rule, rest, marked, |tags|);
    }
    Rejoin(tags, rest, marked, html, Rewrite(rule, html), |tags|);
  }

  lemma {:induction false} FirstRuleCorrect(rules: seq<Rule>, html: string)
    requires Balanced(html)
    ensures Balanced(FirstRule(rules, html)) && Visible(FirstRule(rules, html)) == Visible(html)
    decreases |rules|
  {
    if rules != [] {
      RewriteCorrect(rules[0], html);
      FirstRuleCorrect(rules[1..], html);
    }
  }

  /** For every log line the marked-up line is balanced and shows the line without its SGR sequences. */
  lemma LogLineCorrect(text: string)
    ensures Balanced(LogLine(text)) && Visible(LogLine(text)) == StripSgr(text)
  {
    HtmlCorrect(text);
    FirstRuleCorrect(RULES, Html(text));
  }

  // The functions as the page runs them

  lemma StyleStep(style: string, codes: seq<string>, k: nat)
    requires k < |codes|
    ensures style + StyleOf(codes[k..]) == (style + StylePart(codes[k])) + StyleOf(codes[k + 1..])
  {
  }

  /** The loop over the codes of one sequence. */
  method BuildStyle(codes: seq<string>) returns (style: string)
    ensures style == StyleOf(codes)
  {
    style := "";
    for k := 0 to |codes|
      invariant StyleOf(codes) == style + StyleOf(codes[k..])
    {
      StyleStep(style, codes, k);
      style := style + StylePart(codes[k]);
    }
  }

  method CloseAll(open: nat) returns (closes: string)
    ensures closes == Closes(open)
  {
    closes := "";
    var openSpans := open;
    while openSpans > 0
      invariant Closes(open) == closes + Closes(openSpans)
    {
      closes := closes + CLOSE;
      openSpans := openSpans - 1;
    }
  }

  /** The callback of the replacement. */
  method OnSequence(params: string, open: nat) returns (piece: string, now: nat)
    ensures (piece, now) == Emit(params, open)
  {
    now := open;
    if Resets(params) {
      piece := CloseAll(open);
      now := 0;
    } else {
      piece := BuildStyle(Split(params));
      if piece != "" {
        piece, now := OpenTag(piece), open + 1;
      }
    }
  }

  lemma TransduceStep(s: string, open: nat, html: string)
    requires s != ""
    ensures var n := SgrLength(s);
            if n > 0 then
              var (piece, now) := Emit(Params(s), open);
              html + Transduce(s, open) == (html + piece) + Transduce(s[n..], now)
            else
              html + Transduce(s, open) == (html + [s[0]]) + Transduce(s[1..], open)
  {
  }

  /** The global replacement, and the closing of what is still open. */
  method ReplaceSequences(escaped: string) returns (html: string)
    ensures html == Transduce(escaped, 0)
  {
    ghost var whole := Transduce(escaped, 0);
    var openSpans: nat := 0;
    var rest := escaped;
    html := "";
    while rest != ""
      invariant whole == html + Transduce(rest, openSpans)
      decreases |rest|
    {
      TransduceStep(rest, openSpans, html);
      var n := SgrLength(rest);
      if n > 0 {
        var piece, now := OnSequence(Params(rest), openSpans);
        html, openSpans, rest := html + piece, now, rest[n..];
      } else {
        html, rest := html + [rest[0]], rest[1..];
      }
    }
    var closes := CloseAll(openSpans);
    html := html + closes;
  }

  /** `ansiToHtml`. */
  method AnsiToHtml(text: string) returns (html: string)
    ensures html == Html(text)
    ensures Balanced(html) && Visible(html) == StripSgr(text)
  {
    HtmlCorrect(text);
    html := ReplaceSequences(Escape(text));
  }

  /** The chain of tests and replacements. */
  method ApplyFirst(escaped: string) returns (html: string)
    ensures html == FirstRule(RULES, escaped)
  {
    ghost var whole := FirstRule(RULES, escaped);
    var k := 0;
    while k < |RULES|
      invariant 0 <= k <= |RULES| && whole == FirstRule(RULES[k..], escaped)
    {
      assert RULES[k..][1..] == RULES[k + 1..];
      if Matches(RULES[k], escaped) {
        return Rewrite(RULES[k], escaped);
      }
      k := k + 1;
    }
    html := escaped;
  }

  /** `parseLogLine`. */
  method ParseLogLine(text: string) returns (html: string)
    ensures html == LogLine(text)
    ensures Balanced(html) && Visible(html) == StripSgr(text)
  {
    LogLineCorrect(text);
    var escaped := AnsiToHtml(text);
    html := ApplyFirst(escaped);
  }
}
