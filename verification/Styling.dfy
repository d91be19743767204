/** What a reader of the page sees: every character of a text with the styles that it has, and nothing else. */
module Styling {
  import opened Text
  import opened Ansi

  /** A character, and the tags of the spans that it is in, from the outermost to the innermost. */
  datatype Glyph = Glyph(c: char, spans: seq<string>)

  /** What a browser shows of `html`, when the spans `open` are open. */
  function Shown(html: string, open: seq<string>): seq<Glyph>
    decreases |html|
  {
    if html == "" then []
    else
      match Token(html)
      case Text(s, n) => (if s == "" then [] else [Glyph(s[0], open)]) + Shown(html[n..], open)
      case Opening(n) => Shown(html[n..], open + [html[..n]])
      case Closing(n) => if open == [] then [] else Shown(html[n..], open[..|open| - 1])
      case Broken => []
  }

  /** What the text says is to be shown: SGR sequences are not; one without parameters or with the parameter 0
      ends all styles; any other adds the style that its codes give, if they give one. */
  function Meant(text: string, open: seq<string>): seq<Glyph>
    decreases |text|
  {
    if text == "" then []
    else if SgrLength(text) > 0 then
      var params, rest := Params(text), text[SgrLength(text)..];
      var style := StyleOf(Split(params));
      if params == "" || params == "0" then Meant(rest, [])
      else if style == "" then Meant(rest, open)
      else Meant(rest, open + ["<span style=\"" + style + "\">"])
    else [Glyph(text[0], open)] + Meant(text[1..], open)
  }

  lemma TagShown(tag: string, r: string, open: seq<string>)
    requires SpanTag(tag)
    ensures Shown(tag + r, open) == Shown(r, open + [tag])
  {
    OpeningToken(tag, r);
  }

  lemma CloseShown(r: string, open: seq<string>, tag: string)
    ensures Shown(CLOSE + r, open + [tag]) == Shown(r, open)
  {
    ClosingToken(r);
    assert (open + [tag])[..|open|] == open;
  }

  lemma CharShown(c: char, r: string, open: seq<string>)
    ensures Shown(EscapeChar(c) + r, open) == [Glyph(c, open)] + Shown(r, open)
  {
    CharToken(c, r);
  }

  lemma {:induction false} ClosesShown(r: string, open: seq<string>)
    ensures Shown(CloseOnto(|open|, r), open) == Shown(r, [])
    decreases |open|
  {
    if open != [] {
      var front, tag := open[..|open| - 1], open[|open| - 1];
      assert open == front + [tag];
      ClosesShown(r, front);
      CloseShown(CloseOnto(|front|, r), front, tag);
    }
  }

  lemma EmitShown(params: string, open: seq<string>, r: string)
    ensures var style, tag := StyleOf(Split(params)), "<span style=\"" + StyleOf(Split(params)) + "\">";
            Shown(Emit(params, |open|).0 + r, open)
            == if params == "" || params == "0" then Shown(r, [])
               else if style == "" then Shown(r, open)
               else Shown(r, open + [tag])
    ensures Emit(params, |open|).1 == if params == "" || params == "0" then 0
                                      else if StyleOf(Split(params)) == "" then |open| else |open| + 1
  {
    if params == "" || params == "0" {
      ClosesOnto(|open|, r);
      ClosesShown(r, open);
    } else {
      StylePlain(Split(params));
      if StyleOf(Split(params)) == "" {
        assert "" + r == r;
      } else {
        QuotedIs(STYLED, StyleOf(Split(params)));
        TagShown(OpenTag(StyleOf(Split(params))), r, open);
      }
    }
  }

  lemma {:induction false} RawStyled(text: string, open: seq<string>)
    ensures Shown(TransduceRaw(text, |open|), open) == Meant(text, open)
    decreases |text|
  {
    if text == "" {
      ClosesOnto(|open|, "");
      assert Closes(|open|) + "" == Closes(|open|);
      ClosesShown("", open);
    } else if SgrLength(text) > 0 {
      var params, rest := Params(text), text[SgrLength(text)..];
      var style := StyleOf(Split(params));
      EmitShown(params, open, TransduceRaw(rest, Emit(params, |open|).1));
      RawStyled(rest, if params == "" || params == "0" then [] else if style == "" then open
                      else open + ["<span style=\"" + style + "\">"]);
    } else {
      RawStyled(text[1..], open);
      CharShown(text[0], TransduceRaw(text[1..], |open|), open);
    }
  }

  lemma HtmlIsRaw(text: string)
    ensures Html(text) == TransduceRaw(text, 0)
  {
    EscapeEncodes(text);
    TransduceOnText(text, 0);
  }

  /** For every text, the page shows every character in exactly the styles that the sequences since the last reset
      before it have given, and no other character. */
  lemma StyledCorrect(text: string)
    ensures Shown(Html(text), []) == Meant(text, [])
  {
    HtmlIsRaw(text);
    RawStyled(text, []);
  }

  // Resets

  /** The markup of `text` but for the closing of what is open at its end, and how many spans that is. */
  function Front(text: string, open: nat): (string, nat)
    decreases |text|
  {
    if text == "" then ("", open)
    else if SgrLength(text) > 0 then
      var (piece, now) := Emit(Params(text), open);
      var (more, last) := Front(text[SgrLength(text)..], now);
      (piece + more, last)
    else
      var (more, last) := Front(text[1..], open);
      (EscapeChar(text[0]) + more, last)
  }

  lemma SameParamEnd(text: string, rest: string, i: nat)
    requires i <= |text| && rest != "" && rest[0] == ESC
    ensures ParamEnd(text + rest, i) == ParamEnd(text, i)
    decreases |text| - i
  {
    if i < |text| && IsParam(text[i]) {
      SameParamEnd(text, rest, i + 1);
    }
  }

  /** A sequence does not run into an escape character. */
  lemma SgrBefore(text: string, rest: string)
    requires text != "" && rest != "" && rest[0] == ESC
    ensures SgrLength(text + rest) == SgrLength(text)
    ensures SgrLength(text) > 0 ==> Params(text + rest) == Params(text)
  {
    if |text| >= 2 {
      SameParamEnd(text, rest, 2);
    }
    if SgrLength(text) > 0 {
      assert (text + rest)[2..SgrLength(text) - 1] == text[2..SgrLength(text) - 1];
    }
  }

  lemma SliceBefore(text: string, rest: string, n: nat)
    requires n <= |text|
    ensures (text + rest)[n..] == text[n..] + rest
  {
  }

  lemma Together(a: string, b: string, c: string)
    ensures a + (b + c) == (a + b) + c
  {
  }

  /** Reading can be cut before any escape character. */
  lemma {:induction false} CutBeforeEscape(text: string, rest: string, open: nat)
    requires rest != "" && rest[0] == ESC
    ensures var (front, now) := Front(text, open);
            TransduceRaw(text + rest, open) == front + TransduceRaw(rest, now)
    decreases |text|
  {
    if text == "" {
      assert text + rest == rest && "" + TransduceRaw(rest, open) == TransduceRaw(rest, open);
    } else {
      var n := SgrLength(text);
      SgrBefore(text, rest);
      if n > 0 {
        var (piece, now) := Emit(Params(text), open);
        SliceBefore(text, rest, n);
        CutBeforeEscape(text[n..], rest, now);
        Together(piece, Front(text[n..], now).0, TransduceRaw(rest, Front(text[n..], now).1));
      } else {
        SliceBefore(text, rest, 1);
        CutBeforeEscape(text[1..], rest, open);
        Together(EscapeChar(text[0]), Front(text[1..], open).0, TransduceRaw(rest, Front(text[1..], open).1));
      }
    }
  }

  lemma {:induction false} FrontCloses(text: string, open: nat)
    ensures var (front, now) := Front(text, open); TransduceRaw(text, open) == front + Closes(now)
    decreases |text|
  {
    if text == "" {
      assert "" + Closes(open) == Closes(open);
    } else if SgrLength(text) > 0 {
      var (piece, now) := Emit(Params(text), open);
      var rest := text[SgrLength(text)..];
      FrontCloses(rest, now);
      Together(piece, Front(rest, now).0, Closes(Front(rest, now).1));
    } else {
      FrontCloses(text[1..], open);
      Together(EscapeChar(text[0]), Front(text[1..], open).0, Closes(Front(text[1..], open).1));
    }
  }

  lemma RawStep(text: string, open: nat)
    requires SgrLength(text) > 0
    ensures var (piece, now) := Emit(Params(text), open);
            TransduceRaw(text, open) == piece + TransduceRaw(text[SgrLength(text)..], now)
  {
  }

  lemma ResetIs(params: string, after: string, open: nat)
    requires params == "" || params == "0"
    ensures TransduceRaw([ESC, '['] + (params + ("m" + after)), open) == Closes(open) + TransduceRaw(after, 0)
  {
    ResetFirst(params, after, "m" + after);
    RawStep([ESC, '['] + (params + ("m" + after)), open);
  }

  lemma ResetFirst(params: string, after: string, rest: string)
    requires (params == "" || params == "0") && rest == "m" + after
    ensures var s := [ESC, '['] + (params + rest);
            SgrLength(s) == 3 + |params| && Params(s) == params && s[SgrLength(s)..] == after
  {
    SgrIs(params, rest);
  }

  /** A reset splits a text: wherever it stands, all spans are closed there, and what follows is marked up as if
      it stood alone. */
  lemma ResetSplits(before: string, params: string, after: string)
    requires params == "" || params == "0"
    ensures Html(before + ("\U{1B}[" + (params + ("m" + after)))) == Html(before) + Html(after)
    ensures Balanced(Html(before)) && Visible(Html(before)) == StripSgr(before)
  {
    var rest := [ESC, '['] + (params + ("m" + after));
    assert "\U{1B}[" == [ESC, '['];
    HtmlCorrect(before);
    HtmlIsRaw(before + rest);
    HtmlIsRaw(before);
    HtmlIsRaw(after);
    CutBeforeEscape(before, rest, 0);
    FrontCloses(before, 0);
    ResetIs(params, after, Front(before, 0).1);
    Together(Front(before, 0).0, Closes(Front(before, 0).1), TransduceRaw(after, 0));
  }

  // Sequences

  /** What an SGR sequence is: the control sequence introducer, digits and semicolons, and an "m". */
  lemma SgrIff(s: string, n: nat)
    requires n > 0
    ensures SgrLength(s) == n <==>
        && 3 <= n <= |s| && s[0] == '\U{1B}' && s[1] == '[' && s[n - 1] == 'm'
        && forall k :: 2 <= k < n - 1 ==> '0' <= s[k] <= '9' || s[k] == ';'
    ensures SgrLength(s) == n ==> Params(s) == s[2..n - 1]
  {
    if 3 <= n <= |s| && (forall k :: 2 <= k < n - 1 ==> IsParam(s[k])) && s[n - 1] == 'm' {
      ParamEndIs(s, 2, n - 1);
    }
  }

  lemma {:induction false} ParamEndIs(s: string, i: nat, j: nat)
    requires i <= j < |s| && (forall k :: i <= k < j ==> IsParam(s[k])) && !IsParam(s[j])
    ensures ParamEnd(s, i) == j
    decreases j - i
  {
    if i < j {
      ParamEndIs(s, i + 1, j);
    }
  }

  // The codes of a sequence

  /** The codes with semicolons between them. */
  function Written(codes: seq<string>): string
    requires codes != []
  {
    if |codes| == 1 then codes[0] else codes[0] + ";" + Written(codes[1..])
  }

  /** `split(";")` takes a string apart at every semicolon, and there only. */
  lemma {:induction false} SplitIff(s: string, codes: seq<string>)
    ensures Split(s) == codes <==> codes != [] && (forall c <- codes :: ';' !in c) && Written(codes) == s
    decreases |s|
  {
    SplitWrites(s);
    if codes != [] && (forall c <- codes :: ';' !in c) && Written(codes) == s {
      WrittenSplits(codes);
    }
  }

  lemma {:induction false} SplitWrites(s: string)
    ensures Written(Split(s)) == s && forall c <- Split(s) :: ';' !in c
    decreases |s|
  {
    var k := FirstIndex(s, ';');
    if k < |s| {
      SplitWrites(s[k + 1..]);
      assert ([s[..k]] + Split(s[k + 1..]))[1..] == Split(s[k + 1..]);
      assert s == s[..k] + ";" + s[k + 1..];
    }
  }

  lemma {:induction false} WrittenSplits(codes: seq<string>)
    requires codes != [] && forall c <- codes :: ';' !in c
    ensures Split(Written(codes)) == codes
    decreases |codes|
  {
    var s, c := Written(codes), codes[0];
    assert c in codes;
    if |codes| == 1 {
      assert FirstIndex(s, ';') == |s| && codes == [c];
    } else {
      var rest := Written(codes[1..]);
      WrittenSplits(codes[1..]);
      FirstOf(c, ';', rest);
      assert s == c + [';'] + rest && s[..|c|] == c && s[|c| + 1..] == rest;
      assert codes == [c] + codes[1..];
    }
  }

  function TenTo(n: nat): nat {
    if n == 0 then 1 else 10 * TenTo(n - 1)
  }

  lemma Regroup(a: nat, p: nat, b: nat, d: nat)
    ensures 10 * (a * p + b) + d == a * (10 * p) + (10 * b + d)
  {
  }

  /** Codes are read as decimal numbers, leading zeros included. */
  lemma {:induction false} NumberIs(a: string, b: string)
    ensures ParseNat(a + b) == ParseNat(a) * TenTo(|b|) + ParseNat(b)
    ensures ParseNat("0") == 0 && ParseNat("1") == 1 && ParseNat("2") == 2 && ParseNat("3") == 3 && ParseNat("4") == 4
    ensures ParseNat("5") == 5 && ParseNat("6") == 6 && ParseNat("7") == 7 && ParseNat("8") == 8 && ParseNat("9") == 9
    decreases |b|
  {
    OneDigit("0");
    OneDigit("1");
    OneDigit("2");
    OneDigit("3");
    OneDigit("4");
    OneDigit("5");
    OneDigit("6");
    OneDigit("7");
    OneDigit("8");
    OneDigit("9");
    if b == "" {
      assert a + b == a;
    } else {
      var front, d := b[..|b| - 1], b[|b| - 1];
      NumberIs(a, front);
      assert (a + b)[..|a + b| - 1] == a + front;
      Regroup(ParseNat(a), TenTo(|front|), ParseNat(front), if '0' <= d <= '9' then d as int - '0' as int else 0);
    }
  }

  lemma OneDigit(s: string)
    requires |s| == 1 && '0' <= s[0] <= '9'
    ensures ParseNat(s) == s[0] as int - '0' as int
  {
    assert s[..0] == "";
  }

  /** The style of a sequence is what its codes give, one after the other; an empty code gives nothing. */
  lemma {:induction false} StyleJoins(codes: seq<string>, more: seq<string>)
    ensures StyleOf(codes + more) == StyleOf(codes) + StyleOf(more)
    decreases |codes|
  {
    if codes == [] {
      assert codes + more == more && "" + StyleOf(more) == StyleOf(more);
    } else {
      StyleJoins(codes[1..], more);
      var part := StyleFirst(codes, more);
      Together(part, StyleOf(codes[1..]), StyleOf(more));
    }
  }

  lemma StyleFirst(codes: seq<string>, more: seq<string>) returns (part: string)
    requires codes != []
    ensures StyleOf(codes) == part + StyleOf(codes[1..]) && StyleOf(codes + more) == part + StyleOf(codes[1..] + more)
  {
    part := StylePart(codes[0]);
    assert (codes + more)[1..] == codes[1..] + more && (codes + more)[0] == codes[0];
  }

  lemma StyleOfOne(code: string)
    ensures StyleOf([]) == "" && StyleOf([code]) == if code == "" then "" else CodeStyle(ParseNat(code))
  {
    assert [code][1..] == [];
  }

  // What the codes mean

  lemma PlainCodes()
    ensures CodeStyle(1) == "font-weight: bold;" && CodeStyle(3) == "font-style: italic;"
    ensures CodeStyle(4) == "text-decoration: underline;"
    ensures CodeStyle(39) == "color: inherit;" && CodeStyle(49) == "background-color: inherit;"
    ensures forall n :: n in {0, 2, 38, 48} || 5 <= n < 30 || 50 <= n < 90 || 98 <= n < 100 || n >= 108 ==>
              CodeStyle(n) == ""
  {
  }

  /** The colours 30 to 37 and, as backgrounds, 40 to 47. */
  lemma ColorCodes()
    ensures CodeStyle(30) == "color: " + "#2e3440" + ";"
    ensures CodeStyle(31) == "color: " + "#bf616a" + ";"
    ensures CodeStyle(32) == "color: " + "#a3be8c" + ";"
    ensures CodeStyle(33) == "color: " + "#ebcb8b" + ";"
    ensures CodeStyle(34) == "color: " + "#81a1c1" + ";"
    ensures CodeStyle(35) == "color: " + "#b48ead" + ";"
    ensures CodeStyle(36) == "color: " + "#88c0d0" + ";"
    ensures CodeStyle(37) == "color: " + "#e5e9f0" + ";"
  {
  }

  lemma BackgroundCodes()
    ensures CodeStyle(40) == "background-color: " + "#2e3440" + ";"
    ensures CodeStyle(41) == "background-color: " + "#bf616a" + ";"
    ensures CodeStyle(42) == "background-color: " + "#a3be8c" + ";"
    ensures CodeStyle(43) == "background-color: " + "#ebcb8b" + ";"
    ensures CodeStyle(44) == "background-color: " + "#81a1c1" + ";"
    ensures CodeStyle(45) == "background-color: " + "#b48ead" + ";"
    ensures CodeStyle(46) == "background-color: " + "#88c0d0" + ";"
    ensures CodeStyle(47) == "background-color: " + "#e5e9f0" + ";"
  {
  }

  /** The bright colours 90 to 97 and, as backgrounds, 100 to 107. */
  lemma BrightCodes()
    ensures CodeStyle(90) == "color: " + "#4c566a" + ";"
    ensures CodeStyle(91) == "color: " + "#d08770" + ";"
    ensures CodeStyle(92) == "color: " + "#a3be8c" + ";"
    ensures CodeStyle(93) == "color: " + "#ebcb8b" + ";"
    ensures CodeStyle(94) == "color: " + "#8fbcbb" + ";"
    ensures CodeStyle(95) == "color: " + "#b48ead" + ";"
    ensures CodeStyle(96) == "color: " + "#88c0d0" + ";"
    ensures CodeStyle(97) == "color: " + "#eceff4" + ";"
  {
  }

  lemma BrightBackgroundCodes()
    ensures CodeStyle(100) == "background-color: " + "#4c566a" + ";"
    ensures CodeStyle(101) == "background-color: " + "#d08770" + ";"
    ensures CodeStyle(102) == "background-color: " + "#a3be8c" + ";"
    ensures CodeStyle(103) == "background-color: " + "#ebcb8b" + ";"
    ensures CodeStyle(104) == "background-color: " + "#8fbcbb" + ";"
    ensures CodeStyle(105) == "background-color: " + "#b48ead" + ";"
    ensures CodeStyle(106) == "background-color: " + "#88c0d0" + ";"
    ensures CodeStyle(107) == "background-color: " + "#eceff4" + ";"
  {
  }
}
