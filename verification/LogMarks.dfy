/** Which log lines the page marks up, and how: a bracketed mark at the start of a line, after any span tags. */
module LogMarks {
  import opened Text
  import opened Ansi

  /** JavaScript's white space, character by character. */
  lemma SpacesAre(c: char)
    ensures IsSpace(c) <==>
        || c in {'\t', '\n', '\U{B}', '\U{C}', '\r', ' ', '\U{A0}', '\U{1680}', '\U{2000}', '\U{2001}', '\U{2002}'}
        || c in {'\U{2003}', '\U{2004}', '\U{2005}', '\U{2006}', '\U{2007}', '\U{2008}', '\U{2009}', '\U{200A}'}
        || c in {'\U{2028}', '\U{2029}', '\U{202F}', '\U{205F}', '\U{3000}', '\U{FEFF}'}
  {
  }

  predicate Blank(s: string) {
    forall k :: 0 <= k < |s| ==> IsSpace(s[k])
  }

  predicate AllDigits(s: string) {
    s != "" && forall k :: 0 <= k < |s| ==> '0' <= s[k] <= '9'
  }

  /** What stands between the brackets. */
  ghost predicate IsMark(rule: Rule, mark: string) {
    match rule
    case Timestamp => exists a: string, b: string :: AllDigits(a) && AllDigits(b) && mark == a + ("." + b)
    case Check => mark == "✔"
    case Cross => mark == "x"
    case Warn => mark == "!"
    case Info => mark == "i"
    case Step => mark == "+" || mark == "•"
  }

  /** A line that a rule applies to: tags, white space, the bracketed mark, and the rest of the line. */
  datatype Line = Line(tags: seq<string>, before: string, left: string, mark: string, right: string, tail: string) {
    function Prefix(): string {
      before + ("[" + (left + (mark + (right + "]"))))
    }

    function Html(): string {
      Concat(tags) + (Prefix() + tail)
    }

    ghost predicate Has(rule: Rule) {
      && (forall tag <- tags :: SpanTag(tag)) && Blank(before) && Blank(left) && Blank(right) && IsMark(rule, mark)
      && forall k :: 0 <= k < |tail| ==> tail[k] !in {'\n', '\r', '\U{2028}', '\U{2029}'}
    }
  }

  lemma {:induction false} SpacesTo(s: string, i: nat, j: nat)
    requires i <= j <= |s| && (forall k :: i <= k < j ==> IsSpace(s[k])) && (j < |s| ==> !IsSpace(s[j]))
    ensures Spaces(s, i) == j
    decreases j - i
  {
    if i < j {
      SpacesTo(s, i + 1, j);
    }
  }

  lemma {:induction false} DigitsTo(s: string, i: nat, j: nat)
    requires i <= j <= |s| && (forall k :: i <= k < j ==> '0' <= s[k] <= '9') && (j < |s| ==> !('0' <= s[j] <= '9'))
    ensures Digits(s, i) == j
    decreases j - i
  {
    if i < j {
      DigitsTo(s, i + 1, j);
    }
  }

  lemma {:induction false} SpacesRun(s: string, i: nat)
    requires i <= |s|
    ensures Blank(s[i..Spaces(s, i)]) && (Spaces(s, i) < |s| ==> !IsSpace(s[Spaces(s, i)]))
    decreases |s| - i
  {
    if i < |s| && IsSpace(s[i]) {
      SpacesRun(s, i + 1);
      assert s[i..Spaces(s, i)] == [s[i]] + s[i + 1..Spaces(s, i + 1)];
    }
  }

  lemma {:induction false} DigitsRun(s: string, i: nat)
    requires i <= |s|
    ensures forall k :: i <= k < Digits(s, i) ==> '0' <= s[k] <= '9'
    decreases |s| - i
  {
    if i < |s| && '0' <= s[i] <= '9' {
      DigitsRun(s, i + 1);
    }
  }

  /** A stretch of a string. */
  ghost predicate Stands(s: string, i: nat, t: string) {
    i + |t| <= |s| && forall k :: 0 <= k < |t| ==> s[i + k] == t[k]
  }

  lemma SpacesOver(s: string, i: nat, blank: string, next: char)
    requires Stands(s, i, blank) && Blank(blank) && i + |blank| < |s| && s[i + |blank|] == next && !IsSpace(next)
    ensures Spaces(s, i) == i + |blank|
  {
    forall k | i <= k < i + |blank| ensures IsSpace(s[k]) {
      assert s[i + (k - i)] == blank[k - i];
    }
    SpacesTo(s, i, i + |blank|);
  }

  lemma DigitsOver(s: string, i: nat, digits: string)
    requires Stands(s, i, digits) && AllDigits(digits) && i + |digits| < |s| && !('0' <= s[i + |digits|] <= '9')
    ensures Digits(s, i) == i + |digits|
  {
    forall k | i <= k < i + |digits| ensures '0' <= s[k] <= '9' {
      assert s[i + (k - i)] == digits[k - i];
    }
    DigitsTo(s, i, i + |digits|);
  }

  /** Where the mark ends, for the rule it belongs to. */
  lemma BodyIs(rule: Rule, s: string, i: nat, mark: string)
    requires IsMark(rule, mark) && Stands(s, i, mark) && i + |mark| < |s| && !('0' <= s[i + |mark|] <= '9')
    ensures Body(rule, s, i) == i + |mark| && mark != ""
  {
    if rule == Timestamp {
      var a, b :| AllDigits(a) && AllDigits(b) && mark == a + ("." + b);
      StampIs(s, i, a, b, mark);
    } else {
      assert s[i + 0] == mark[0];
    }
  }

  lemma StampIs(s: string, i: nat, a: string, b: string, mark: string)
    requires AllDigits(a) && AllDigits(b) && mark == a + ("." + b)
    requires Stands(s, i, mark) && i + |mark| < |s| && !('0' <= s[i + |mark|] <= '9')
    ensures Body(Timestamp, s, i) == i + |mark|
  {
    forall k | 0 <= k < |a| ensures s[i + k] == a[k] {
      assert mark[k] == a[k];
    }
    forall k | 0 <= k < |b| ensures s[i + |a| + 1 + k] == b[k] {
      assert mark[|a| + 1 + k] == b[k];
    }
    assert s[i + |a|] == mark[|a|] == '.';
    DigitsOver(s, i, a);
    DigitsOver(s, i + |a| + 1, b);
  }

  /** What a mark starts with. */
  predicate Starts(rule: Rule, c: char) {
    match rule
    case Timestamp => '0' <= c <= '9'
    case Check => c == '✔'
    case Cross => c == 'x'
    case Warn => c == '!'
    case Info => c == 'i'
    case Step => c == '+' || c == '•'
  }

  lemma MarkStarts(rule: Rule, mark: string)
    requires IsMark(rule, mark)
    ensures mark != "" && Starts(rule, mark[0]) && !IsSpace(mark[0])
  {
    if rule == Timestamp {
      var a, b :| AllDigits(a) && AllDigits(b) && mark == a + ("." + b);
      assert mark[0] == a[0];
    }
  }

  /** A mark of one rule is none of another. */
  lemma OtherBody(rule: Rule, other: Rule, s: string, i: nat)
    requires i < |s| && Starts(rule, s[i]) && other != rule
    ensures Body(other, s, i) == i
  {
    if other == Timestamp {
      assert Digits(s, i) == i;
    }
  }

  lemma BracketStands(s: string, before: string, left: string, mark: string, right: string, tail: string)
    requires s == before + ("[" + (left + (mark + (right + "]")))) + tail
    ensures Stands(s, 0, before) && |before| < |s| && s[|before|] == '['
    ensures Stands(s, |before| + 1, left) && Stands(s, |before| + 1 + |left|, mark)
    ensures Stands(s, |before| + 1 + |left| + |mark|, right)
    ensures |before| + 1 + |left| + |mark| + |right| < |s| && s[|before| + 1 + |left| + |mark| + |right|] == ']'
  {
  }

  /** A rule finds the bracketed prefix that has its mark, and no other rule does. */
  lemma BracketIs(rule: Rule, other: Rule, s: string, before: string, left: string, mark: string, right: string,
                  tail: string)
    requires s == before + ("[" + (left + (mark + (right + "]")))) + tail
    requires Blank(before) && Blank(left) && Blank(right) && IsMark(rule, mark)
    ensures Bracket(other, s) == if other == rule then |before| + |left| + |mark| + |right| + 2 else 0
  {
    BracketStands(s, before, left, mark, right, tail);
    BracketOf(rule, other, s, before, left, mark, right);
  }

  lemma BracketOf(rule: Rule, other: Rule, s: string, before: string, left: string, mark: string, right: string)
    requires Stands(s, 0, before) && |before| < |s| && s[|before|] == '['
    requires Stands(s, |before| + 1, left) && Stands(s, |before| + 1 + |left|, mark)
    requires Stands(s, |before| + 1 + |left| + |mark|, right)
    requires |before| + 1 + |left| + |mark| + |right| < |s| && s[|before| + 1 + |left| + |mark| + |right|] == ']'
    requires Blank(before) && Blank(left) && Blank(right) && IsMark(rule, mark)
    ensures Bracket(other, s) == if other == rule then |before| + |left| + |mark| + |right| + 2 else 0
  {
    MarkStarts(rule, mark);
    SpacesOver(s, 0, before, '[');
    assert s[|before| + 1 + |left| + 0] == mark[0];
    SpacesOver(s, |before| + 1, left, mark[0]);
    if other == rule {
      OwnBracket(rule, s, |before|, |before| + 1 + |left|, mark, right);
    } else {
      OtherBracket(rule, other, s, |before|, |before| + 1 + |left|);
    }
  }

  lemma OwnBracket(rule: Rule, s: string, a: nat, b: nat, mark: string, right: string)
    requires Spaces(s, 0) == a < |s| && s[a] == '[' && Spaces(s, a + 1) == b
    requires Stands(s, b, mark) && Stands(s, b + |mark|, right) && IsMark(rule, mark) && Blank(right)
    requires b + |mark| + |right| < |s| && s[b + |mark| + |right|] == ']'
    ensures Bracket(rule, s) == b + |mark| + |right| + 1
  {
    MarkThenRight(rule, s, b, mark, right);
    SpacesOver(s, b + |mark|, right, ']');
    BracketFrom(rule, s, a, b, b + |mark|, b + |mark| + |right|);
  }

  lemma OtherBracket(rule: Rule, other: Rule, s: string, a: nat, b: nat)
    requires Spaces(s, 0) == a < |s| && s[a] == '[' && Spaces(s, a + 1) == b < |s|
    requires Starts(rule, s[b]) && other != rule
    ensures Bracket(other, s) == 0
  {
    OtherBody(rule, other, s, b);
    BracketFrom(other, s, a, b, b, b);
  }

  lemma BracketFrom(rule: Rule, s: string, a: nat, b: nat, c: nat, d: nat)
    requires Spaces(s, 0) == a < |s| && s[a] == '[' && Spaces(s, a + 1) == b && Body(rule, s, b) == c
    requires c > b ==> Spaces(s, c) == d < |s| && s[d] == ']'
    ensures Bracket(rule, s) == if c == b then 0 else d + 1
  {
  }

  lemma MarkThenRight(rule: Rule, s: string, b: nat, mark: string, right: string)
    requires IsMark(rule, mark) && Stands(s, b, mark) && Stands(s, b + |mark|, right) && Blank(right)
    requires b + |mark| + |right| < |s| && s[b + |mark| + |right|] == ']'
    ensures Body(rule, s, b) == b + |mark| && mark != ""
  {
    if right != "" {
      assert s[b + |mark| + 0] == right[0] && IsSpace(right[0]);
    }
    BodyIs(rule, s, b, mark);
  }

  /** And what a rule finds is such a prefix. */
  lemma BracketFinds(rule: Rule, s: string)
    returns (before: string, left: string, mark: string, right: string, tail: string)
    requires Bracket(rule, s) > 0
    ensures s == before + ("[" + (left + (mark + (right + "]")))) + tail
    ensures Blank(before) && Blank(left) && Blank(right) && IsMark(rule, mark) && tail == s[Bracket(rule, s)..]
  {
    var a := Spaces(s, 0);
    var b := Spaces(s, a + 1);
    var c := Body(rule, s, b);
    var d := Spaces(s, c);
    SpacesRun(s, 0);
    SpacesRun(s, a + 1);
    SpacesRun(s, c);
    before, left, mark, right, tail := s[..a], s[a + 1..b], s[b..c], s[c..d], s[d + 1..];
    assert s[0..a] == before;
    BodyFinds(rule, s, b);
    Pieces(s, a, b, c, d);
  }

  lemma Pieces(s: string, a: nat, b: nat, c: nat, d: nat)
    requires a < b <= c <= d < |s| && s[a] == '[' && s[d] == ']'
    ensures s == s[..a] + ("[" + (s[a + 1..b] + (s[b..c] + (s[c..d] + "]")))) + s[d + 1..]
  {
  }

  lemma BodyFinds(rule: Rule, s: string, i: nat)
    requires i <= |s| && Body(rule, s, i) > i
    ensures IsMark(rule, s[i..Body(rule, s, i)])
  {
    if rule == Timestamp {
      var d := Digits(s, i);
      var e := Digits(s, d + 1);
      DigitsRun(s, i);
      DigitsRun(s, d + 1);
      assert AllDigits(s[i..d]) && AllDigits(s[d + 1..e]);
      assert s[i..e] == s[i..d] + ("." + s[d + 1..e]);
    } else {
      assert s[i..i + 1] == [s[i]];
    }
  }

  // The tags before the bracket

  lemma TagHead(tag: string, rest: string)
    requires SpanTag(tag)
    ensures StartsWith(tag + rest, "<span") && FirstIndex(tag + rest, '>') == |tag| - 1
  {
    SpanTagEnds(tag);
    FirstOf(tag[..|tag| - 1], '>', rest);
    assert tag + rest == tag[..|tag| - 1] + ['>'] + rest;
    var open := if Quoted(tag, STYLED) then STYLED else CLASSED;
    assert tag[..13] == open && forall k :: 0 <= k < 5 ==> (tag + rest)[k] == tag[..13][k] == "<span"[k];
  }

  lemma HeadFirst(tag: string, rest: string)
    requires SpanTag(tag)
    ensures HeadLength(tag + rest) == |tag| + HeadLength(rest)
  {
    TagHead(tag, rest);
    SpanTagEnds(tag);
    assert (tag + rest)[|tag|..] == rest;
  }

  lemma NoHead(rest: string)
    requires rest != "" ==> rest[0] != '<'
    ensures HeadLength(rest) == 0
  {
    if |rest| >= 5 {
      assert rest[..5][0] == rest[0];
    }
  }

  lemma Regroups(a: string, b: string, c: string)
    ensures (a + b) + c == a + (b + c)
  {
  }

  lemma {:induction false} HeadIs(tags: seq<string>, rest: string)
    requires (forall tag <- tags :: SpanTag(tag)) && (rest != "" ==> rest[0] != '<')
    ensures HeadLength(Concat(tags) + rest) == |Concat(tags)|
    decreases |tags|
  {
    if tags == [] {
      assert Concat(tags) + rest == rest;
      NoHead(rest);
    } else {
      EachTag(tags);
      HeadIs(tags[1..], rest);
      HeadFirst(tags[0], Concat(tags[1..]) + rest);
      Regroups(tags[0], Concat(tags[1..]), rest);
    }
  }

  lemma LineHead(line: Line, rule: Rule)
    requires line.Has(rule)
    ensures HeadLength(line.Html()) == |Concat(line.tags)|
    ensures line.Html()[HeadLength(line.Html())..] == line.Prefix() + line.tail
    ensures line.Html()[..HeadLength(line.Html())] == Concat(line.tags)
  {
    var rest := line.Prefix() + line.tail;
    if line.before != "" {
      assert rest[0] == line.before[0] && IsSpace(line.before[0]);
    } else {
      assert rest[0] == '[';
    }
    HeadIs(line.tags, rest);
  }

  lemma OnlyThisRule(line: Line, rule: Rule, other: Rule)
    requires line.Has(rule)
    ensures Matches(other, line.Html()) <==> other == rule
  {
    LineHead(line, rule);
    BracketIs(rule, other, line.Prefix() + line.tail, line.before, line.left, line.mark, line.right, line.tail);
    if other == rule {
      assert (line.Prefix() + line.tail)[|line.Prefix()|..] == line.tail;
      assert forall c <- line.tail :: !IsLineEnd(c);
    }
  }

  lemma {:induction false} FirstMatch(rules: seq<Rule>, k: nat, html: string)
    requires k < |rules| && Matches(rules[k], html) && forall j :: 0 <= j < k ==> !Matches(rules[j], html)
    ensures FirstRule(rules, html) == Rewrite(rules[k], html)
    decreases |rules|
  {
    if k > 0 {
      assert !Matches(rules[0], html);
      FirstMatch(rules[1..], k - 1, html);
    }
  }

  function Place(rule: Rule): (k: nat)
    ensures k < |RULES| && RULES[k] == rule
  {
    match rule
    case Timestamp => 0
    case Check => 1
    case Cross => 2
    case Warn => 3
    case Info => 4
    case Step => 5
  }

  lemma RewritesBy(rules: seq<Rule>, k: nat, line: Line, rule: Rule)
    requires line.Has(rule) && k < |rules| && rules[k] == rule && forall j :: 0 <= j < k ==> rules[j] != rule
    ensures FirstRule(rules, line.Html()) == Concat(line.tags) + Marked(rule, line.Prefix(), line.tail)
  {
    forall other ensures Matches(other, line.Html()) <==> other == rule {
      OnlyThisRule(line, rule, other);
    }
    FirstMatch(rules, k, line.Html());
    RewritesOwn(line, rule);
  }

  lemma RewritesOwn(line: Line, rule: Rule)
    requires line.Has(rule)
    ensures Rewrite(rule, line.Html()) == Concat(line.tags) + Marked(rule, line.Prefix(), line.tail)
  {
    LineHead(line, rule);
    BracketIs(rule, rule, line.Prefix() + line.tail, line.before, line.left, line.mark, line.right, line.tail);
    RewriteIs(rule, line.Html(), Concat(line.tags), line.Prefix(), line.tail);
  }

  lemma RewritesLine(line: Line, rule: Rule, text: string)
    requires line.Has(rule) && Ansi.Html(text) == line.Html()
    ensures LogLine(text) == Concat(line.tags) + Marked(rule, line.Prefix(), line.tail)
  {
    RewritesBy(RULES, Place(rule), line, rule);
  }

  lemma RewriteIs(rule: Rule, html: string, head: string, prefix: string, tail: string)
    requires html[..HeadLength(html)] == head && html[HeadLength(html)..] == prefix + tail
    requires Bracket(rule, prefix + tail) == |prefix|
    ensures Rewrite(rule, html) == head + Marked(rule, prefix, tail)
  {
    assert (prefix + tail)[..|prefix|] == prefix && (prefix + tail)[|prefix|..] == tail;
  }

  /** How a line with a mark is marked up: the bracketed prefix goes into a span with the class of its mark, and for
      three of the marks the rest of the line into a span of its own. */
  lemma LineMarked(line: Line, rule: Rule, text: string)
    requires line.Has(rule) && Ansi.Html(text) == line.Html()
    ensures LogLine(text) == Concat(line.tags) +
        match rule
        case Timestamp => "<span class=\"" + "term-tstamp" + "\">" + (line.Prefix() + ("</span>" + line.tail))
        case Check => "<span class=\"" + "term-check" + "\">" + (line.Prefix() + ("</span>"
                      + ("<span class=\"" + ("term-check" + "-text") + "\">" + (line.tail + "</span>"))))
        case Cross => "<span class=\"" + "term-error" + "\">" + (line.Prefix() + ("</span>"
                      + ("<span class=\"" + ("term-error" + "-text") + "\">" + (line.tail + "</span>"))))
        case Warn => "<span class=\"" + "term-warn" + "\">" + (line.Prefix() + ("</span>"
                     + ("<span class=\"" + ("term-warn" + "-text") + "\">" + (line.tail + "</span>"))))
        case Info => "<span class=\"" + "term-info" + "\">" + (line.Prefix() + ("</span>" + line.tail))
        case Step => "<span class=\"" + "term-step" + "\">" + (line.Prefix() + ("</span>" + line.tail))
  {
    RewritesLine(line, rule, text);
  }

  lemma {:induction false} NoneMatches(rules: seq<Rule>, html: string)
    requires forall rule <- rules :: !Matches(rule, html)
    ensures FirstRule(rules, html) == html
    decreases |rules|
  {
    if rules != [] {
      assert rules[0] in rules;
      NoneMatches(rules[1..], html);
    }
  }

  lemma Found(html: string, rule: Rule) returns (line: Line)
    requires Matches(rule, html) && Balanced(html)
    ensures line.Has(rule) && line.Html() == html
  {
    var tags := HeadTags(html, 0);
    var head, rest := HeadAndRest(html);
    var before, left, mark, right, tail := BracketFinds(rule, rest);
    line := Line(tags, before, left, mark, right, tail);
    TailClean(rule, html, rest, tail);
  }

  lemma TailClean(rule: Rule, html: string, rest: string, tail: string)
    requires Matches(rule, html) && rest == html[HeadLength(html)..] && tail == rest[Bracket(rule, rest)..]
    ensures forall k :: 0 <= k < |tail| ==> tail[k] !in {'\n', '\r', '\U{2028}', '\U{2029}'}
  {
    forall k | 0 <= k < |tail| ensures !IsLineEnd(tail[k]) {
      assert tail[k] in tail;
    }
  }

  /** A line without such a prefix is left as it is. */
  lemma OthersStay(text: string)
    requires forall line: Line, rule: Rule :: line.Has(rule) ==> line.Html() != Ansi.Html(text)
    ensures LogLine(text) == Ansi.Html(text)
  {
    HtmlCorrect(text);
    forall rule | rule in RULES ensures !Matches(rule, Ansi.Html(text)) {
      if Matches(rule, Ansi.Html(text)) {
        var line := Found(Ansi.Html(text), rule);
        assert false;
      }
    }
    NoneMatches(RULES, Ansi.Html(text));
  }
}
