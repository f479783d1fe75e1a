/** Properties of formatMarkdown (chatbot.js:22-28). */
module FormatProofs {
  import opened Js
  import opened SeqFacts
  import opened TextPipeline
  import opened TextPipelineProofs

  /** The last rule replaces every line feed that is left, so none survives. */
  lemma {:induction false} LineBreakRemovesLineFeeds(s: string, i: nat)
    requires i <= |s|
    ensures '\n' !in ReplaceFrom(LineBreak, s, i)
    decreases |s| - i
  {
    if i < |s| {
      LineBreakRemovesLineFeeds(s, i + 1);
      if s[i] == '\n' {
        ReplaceAtHit(LineBreak, s, i);
      } else {
        ReplaceAtMiss(LineBreak, s, i);
      }
    }
  }

  /** formatMarkdown never leaves a line feed in its output. */
  lemma FormatHasNoLineFeed(s: string)
    ensures '\n' !in FormatMarkdown(s)
  {
    LineBreakRemovesLineFeeds(ReplaceAll(ParagraphBreak, ReplaceAll(NumberedLine, ReplaceAll(Bold, s))), 0);
  }

  /** Text on one line, with no `*` and not starting with a digit, is left
      unchanged by all four formatting rules. */
  lemma FormatLeavesPlainText(s: string)
    requires '*' !in s
    requires forall m :: 0 <= m < |s| ==> !IsLineTerminator(s[m])
    requires s == [] || !IsDigit(s[0])
    ensures FormatMarkdown(s) == s
  {
    assert forall m :: 0 <= m < |s| ==> s[m] != '*';
    ReplaceIdle(Bold, s);
    ReplaceIdle(NumberedLine, s);
    ReplaceIdle(ParagraphBreak, s);
    ReplaceIdle(LineBreak, s);
  }

  // ---------------------------------------------------------------------------
  // Composing a scan out of pieces

  /** The scan from `i` emits `out` and then goes on as the scan from `j`. */
  predicate Scans(pat: Pattern, s: string, i: nat, j: nat, out: string) {
    i <= j <= |s| && Rest(pat, s, i) == out + Rest(pat, s, j)
  }

  /** The output of the scan from `i` on. */
  function Rest(pat: Pattern, s: string, i: nat): string
    requires i <= |s|
  {
    ReplaceFrom(pat, s, i)
  }

  lemma ScanChain(pat: Pattern, s: string, i: nat, j: nat, k: nat, o1: string, o2: string)
    requires Scans(pat, s, i, j, o1)
    requires Scans(pat, s, j, k, o2)
    ensures Scans(pat, s, i, k, o1 + o2)
  {
    Assoc(o1, o2, Rest(pat, s, k));
  }

  lemma ScanWhole(pat: Pattern, s: string, out: string)
    requires Scans(pat, s, 0, |s|, out)
    ensures ReplaceAll(pat, s) == out
  {
  }

  lemma ScanHit(pat: Pattern, s: string, i: nat, h: Hit)
    requires i <= |s| && MatchAt(pat, s, i) == Some(h)
    ensures Scans(pat, s, i, h.end, h.replacement)
  {
    ReplaceAtHit(pat, s, i);
  }

  lemma ScanMiss(pat: Pattern, s: string, i: nat)
    requires i < |s| && MatchAt(pat, s, i).None?
    ensures Scans(pat, s, i, i + 1, [s[i]])
  {
    ReplaceAtMiss(pat, s, i);
  }

  predicate NoLineTerminator(x: string) {
    '\n' !in x && '\r' !in x && '\U{2028}' !in x && '\U{2029}' !in x
  }

  lemma NoLineTerminatorAt(x: string, m: nat)
    requires NoLineTerminator(x) && m < |x|
    ensures !IsLineTerminator(x[m])
  {
  }

  /** `s` from `i` on is `x` then `y`. */
  lemma SliceAt(s: string, i: nat, x: string, y: string)
    requires i <= |s| && s[i..] == x + y
    ensures |s| == i + |x| + |y| && s[i..i + |x|] == x && s[i + |x|..] == y
    ensures |x| > 0 ==> s[i] == x[0]
  {
    assert s[i..i + |x|] == s[i..][..|x|];
    assert s[i + |x|..] == s[i..][|x|..];
    if |x| > 0 {
      assert s[i] == s[i..][0];
    }
  }

  /** The character every match of the bold and the two break rules starts with. */
  function Lead(pat: Pattern): char {
    if pat == Bold then '*' else '\n'
  }

  /** A piece without the first character of the pattern is copied unchanged. */
  lemma ScanPlain(pat: Pattern, s: string, i: nat, x: string)
    requires pat == Bold || pat == ParagraphBreak || pat == LineBreak
    requires i + |x| <= |s| && s[i..i + |x|] == x && Lead(pat) !in x
    ensures Scans(pat, s, i, i + |x|, x)
  {
    forall m | i <= m < i + |x| ensures MatchAt(pat, s, m).None? {
      assert s[m] == x[m - i];
    }
    ReplaceSkips(pat, s, i, i + |x|);
  }

  /** A piece within one line that does not start a numbered line is copied unchanged. */
  lemma ScanUnnumbered(s: string, i: nat, x: string)
    requires i + |x| <= |s| && s[i..i + |x|] == x && NoLineTerminator(x)
    requires x == [] || !IsDigit(x[0])
    ensures Scans(NumberedLine, s, i, i + |x|, x)
  {
    forall m | i <= m < i + |x| ensures MatchAt(NumberedLine, s, m).None? {
      assert s[m] == x[m - i];
      if m > i {
        assert s[m - 1] == x[m - 1 - i];
        NoLineTerminatorAt(x, m - 1 - i);
      }
    }
    ReplaceSkips(NumberedLine, s, i, i + |x|);
  }

  /** `**t**` with `t` on one line and free of `*` becomes a strong element. */
  lemma BoldHit(s: string, t: string, e: nat)
    requires e == 4 + |t| <= |s| && s[..e] == "**" + t + "**"
    requires '*' !in t && NoLineTerminator(t)
    ensures Scans(Bold, s, 0, e, "<strong>" + t + "</strong>")
  {
    var p := 2 + |t|;
    forall m | 2 <= m < p ensures s[m] != Brackets(Stars)[0] && !IsLineTerminator(s[m]) {
      assert s[m] == s[..e][m] == t[m - 2];
      NoLineTerminatorAt(t, m - 2);
    }
    LazyOverText(Stars, s, 2, p);
    assert s[p] == s[..e][p] == '*' && s[p + 1] == s[..e][p + 1] == '*';
    assert LazyUntil(Stars, s, p) == Some(Close(p, "", "", e));
    assert s[2..p] == s[..e][2..p] == t;
    assert s[0] == s[..e][0] == '*' && s[1] == s[..e][1] == '*';
    ScanHit(Bold, s, 0, Hit(e, "<strong>" + t + "</strong>"));
  }

  /** At a line start, `n. t` followed by the end of the line becomes a numbered
      paragraph, when `t` is not empty and does not start with white space. */
  lemma NumberedHit(s: string, i: nat, n: string, t: string, e: nat)
    requires e == i + |n| + 2 + |t| <= |s| && AtLineStart(s, i)
    requires s[i..e] == n + ". " + t
    requires |n| > 0 && AllIn(n, Digit)
    requires |t| > 0 && !IsSpace(t[0]) && NoLineTerminator(t)
    requires e == |s| || IsLineTerminator(s[e])
    ensures Scans(NumberedLine, s, i, e, "<p><strong>" + n + ".</strong> " + t + "</p>")
  {
    var a := i + |n|;
    var w := a + 2;
    NumberPart(s, i, n, t, e, a);
    SpacePart(s, i, n, t, e, a, w);
    TextPart(s, i, n, t, e, w);
    NumberedLineMatch(s, i, a, w, e, n, t);
    ScanHit(NumberedLine, s, i, Hit(e, "<p><strong>" + n + ".</strong> " + t + "</p>"));
  }

  /** The number of the line `n. t` and the dot after it. */
  lemma NumberPart(s: string, i: nat, n: string, t: string, e: nat, a: nat)
    requires e == i + |n| + 2 + |t| <= |s| && a == i + |n|
    requires s[i..e] == n + ". " + t && AllIn(n, Digit)
    ensures Span(s, i, Digit) == a && s[a] == '.' && s[i..a] == n
  {
    var u := s[i..e];
    assert forall m :: i <= m < a ==> s[m] == u[m - i] == n[m - i];
    assert s[a] == u[|n|] == '.';
    SpanExact(s, i, a, Digit);
    assert s[i..a] == u[..|n|];
  }

  /** The single space after the dot, ended by the text's first character. */
  lemma SpacePart(s: string, i: nat, n: string, t: string, e: nat, a: nat, w: nat)
    requires e == i + |n| + 2 + |t| <= |s| && a == i + |n| && w == a + 2
    requires s[i..e] == n + ". " + t && |t| > 0 && !IsSpace(t[0])
    ensures Span(s, a + 1, Space) == w
  {
    var u := s[i..e];
    assert s[a + 1] == u[|n| + 1] == ' ';
    assert s[w] == u[|n| + 2] == t[0];
    SpanExact(s, a + 1, w, Space);
  }

  /** The text runs to the end of the line. */
  lemma TextPart(s: string, i: nat, n: string, t: string, e: nat, w: nat)
    requires e == i + |n| + 2 + |t| <= |s| && w == i + |n| + 2
    requires s[i..e] == n + ". " + t && NoLineTerminator(t)
    requires e == |s| || IsLineTerminator(s[e])
    ensures Span(s, w, LineChar) == e && s[w..e] == t
  {
    var u := s[i..e];
    forall m | w <= m < e ensures InClass(s[m], LineChar) {
      assert s[m] == u[m - i] == t[m - w];
      NoLineTerminatorAt(t, m - w);
    }
    SpanExact(s, w, e, LineChar);
    assert s[w..e] == u[|n| + 2..];
  }

  /** How the numbered-line matcher assembles its match from the three runs. */
  lemma NumberedLineMatch(s: string, i: nat, a: nat, w: nat, e: nat, n: string, t: string)
    requires i < a && w == a + 2 <= e <= |s| && AtLineStart(s, i)
    requires Span(s, i, Digit) == a && s[a] == '.' && s[i..a] == n
    requires Span(s, a + 1, Space) == w
    requires Span(s, w, LineChar) == e && s[w..e] == t
    ensures MatchAt(NumberedLine, s, i) == Some(Hit(e, "<p><strong>" + n + ".</strong> " + t + "</p>"))
  {
  }

  /** Exactly two line feeds become two break elements. */
  lemma ParagraphHit(s: string, i: nat)
    requires i + 2 <= |s| && s[i] == '\n' && s[i + 1] == '\n'
    requires i + 2 == |s| || s[i + 2] != '\n'
    ensures Scans(ParagraphBreak, s, i, i + 2, "<br><br>")
  {
    SpanExact(s, i, i + 2, Newline);
    ScanHit(ParagraphBreak, s, i, Hit(i + 2, "<br><br>"));
  }

  // ---------------------------------------------------------------------------
  // A reply with a bold phrase, a blank line and a two-item numbered list

  /** What the numbered-line rule makes of the line `n. t`. */
  function NumberedItem(n: string, t: string): string {
    "<p><strong>" + n + ".</strong> " + t + "</p>"
  }

  /** A list item the numbered-line rule takes whole: a number, then a text on
      one line that starts with something other than white space. */
  predicate ItemLine(n: string, t: string) {
    && |n| > 0 && AllIn(n, Digit)
    && |t| > 0 && !IsSpace(t[0]) && NoLineTerminator(t) && '*' !in t
  }

  /** Bold rule: the leading `**t**` becomes a strong element, and a rest
      without `*` is copied. */
  lemma BoldThenPlain(t: string, r: string)
    requires '*' !in t && NoLineTerminator(t) && '*' !in r
    ensures ReplaceAll(Bold, "**" + t + "**" + r) == "<strong>" + t + "</strong>" + r
  {
    var s := "**" + t + "**" + r;
    var e := 4 + |t|;
    assert s[..e] == "**" + t + "**";
    BoldHit(s, t, e);
    assert s[e..e + |r|] == r;
    ScanPlain(Bold, s, e, r);
    ScanChain(Bold, s, 0, e, e + |r|, "<strong>" + t + "</strong>", r);
    ScanWhole(Bold, s, "<strong>" + t + "</strong>" + r);
  }

  /** Numbered-line rule: a first line that is not numbered and a blank line are copied. */
  lemma NumberedSkipsOpening(s: string, y: string)
    requires |y| + 2 <= |s| && s[..|y| + 2] == y + "\n\n"
    requires NoLineTerminator(y) && (y == [] || !IsDigit(y[0]))
    ensures Scans(NumberedLine, s, 0, |y| + 2, y + "\n\n")
  {
    var b := |y|;
    OpeningParts(s, y, b);
    ScanUnnumbered(s, 0, y);
    BlankLineSkipped(s, b);
    ScanChain(NumberedLine, s, 0, b, b + 2, y, "\n\n");
  }

  lemma OpeningParts(s: string, y: string, b: nat)
    requires b == |y| && b + 2 <= |s| && s[..b + 2] == y + "\n\n"
    ensures s[0..0 + |y|] == y && s[b] == '\n' && s[b + 1] == '\n'
  {
    assert s[0..0 + |y|] == s[..b + 2][..b];
    assert s[b] == s[..b + 2][b] && s[b + 1] == s[..b + 2][b + 1];
  }

  /** A blank line, two line feeds, is no numbered line and is copied. */
  lemma BlankLineSkipped(s: string, b: nat)
    requires b + 2 <= |s| && s[b] == '\n' && s[b + 1] == '\n'
    ensures Scans(NumberedLine, s, b, b + 2, "\n\n")
  {
    ScanMiss(NumberedLine, s, b);
    ScanMiss(NumberedLine, s, b + 1);
    ScanChain(NumberedLine, s, b, b + 1, b + 2, [s[b]], [s[b + 1]]);
    assert [s[b]] + [s[b + 1]] == "\n\n";
  }

  /** Numbered-line rule: two list items on consecutive lines, to the end of the text. */
  lemma NumberedTwoItems(s: string, i: nat, n1: string, t1: string, n2: string, t2: string)
    requires i <= |s| && AtLineStart(s, i) && s[i..] == n1 + ". " + t1 + "\n" + n2 + ". " + t2
    requires ItemLine(n1, t1) && ItemLine(n2, t2)
    ensures Scans(NumberedLine, s, i, |s|, NumberedItem(n1, t1) + "\n" + NumberedItem(n2, t2))
  {
    var k := i + |n1| + 3 + |t1|;
    ItemThenLineFeed(s, i, n1, t1, n2 + ". " + t2, k);
    assert Scans(NumberedLine, s, i, k, NumberedItem(n1, t1) + "\n");
    LastItem(s, k, n2, t2);
    assert Scans(NumberedLine, s, k, |s|, NumberedItem(n2, t2));
    ScanChain(NumberedLine, s, i, k, |s|, NumberedItem(n1, t1) + "\n", NumberedItem(n2, t2));
  }

  /** Numbered-line rule: a list item and the line feed that ends it. */
  lemma ItemThenLineFeed(s: string, i: nat, n: string, t: string, c: string, k: nat)
    requires k == i + |n| + 3 + |t|
    requires i <= |s| && AtLineStart(s, i) && s[i..] == n + ". " + t + "\n" + c
    requires ItemLine(n, t)
    ensures k <= |s| && AtLineStart(s, k) && s[k..] == c
    ensures Scans(NumberedLine, s, i, k, NumberedItem(n, t) + "\n")
  {
    var u := s[i..];
    var e := i + |n| + 2 + |t|;
    assert s[e] == u[e - i] == '\n';
    assert s[e + 1..] == u[e + 1 - i..] == c;
    assert s[i..e] == u[..|n| + 2 + |t|] == n + ". " + t;
    NumberedHit(s, i, n, t, e);
    LineFeedAfterItem(s, e, k, t);
    ScanChain(NumberedLine, s, i, e, k, NumberedItem(n, t), "\n");
  }

  /** Numbered-line rule: the line feed after a line that was taken is copied. */
  lemma LineFeedAfterItem(s: string, e: nat, k: nat, t: string)
    requires k == e + 1
    requires |t| <= e < |s| && s[e] == '\n' && s[e - |t|..e] == t && |t| > 0 && NoLineTerminator(t)
    ensures Scans(NumberedLine, s, e, k, "\n")
  {
    assert s[e - 1] == t[|t| - 1];
    NoLineTerminatorAt(t, |t| - 1);
    ScanMiss(NumberedLine, s, e);
    assert [s[e]] == "\n";
  }

  /** Numbered-line rule: a list item that ends the text. */
  lemma LastItem(s: string, k: nat, n: string, t: string)
    requires k <= |s| && AtLineStart(s, k) && s[k..] == n + ". " + t
    requires ItemLine(n, t)
    ensures Scans(NumberedLine, s, k, |s|, NumberedItem(n, t))
  {
    assert s[k..|s|] == n + ". " + t;
    NumberedHit(s, k, n, t, |s|);
  }

  /** Numbered-line rule: a first line that is not numbered, a blank line,
      then two list items. */
  lemma NumberedAfterBlankLine(y: string, n1: string, t1: string, n2: string, t2: string)
    requires NoLineTerminator(y) && (y == [] || !IsDigit(y[0]))
    requires ItemLine(n1, t1) && ItemLine(n2, t2)
    ensures ReplaceAll(NumberedLine, y + "\n\n" + (n1 + ". " + t1 + "\n" + n2 + ". " + t2))
            == y + "\n\n" + (NumberedItem(n1, t1) + "\n" + NumberedItem(n2, t2))
  {
    var items := n1 + ". " + t1 + "\n" + n2 + ". " + t2;
    var s := y + "\n\n" + items;
    var b := |y| + 2;
    assert s[..b] == y + "\n\n";
    assert s[b..] == items;
    NumberedSkipsOpening(s, y);
    NumberedTwoItems(s, b, n1, t1, n2, t2);
    ScanChain(NumberedLine, s, 0, b, |s|, y + "\n\n", NumberedItem(n1, t1) + "\n" + NumberedItem(n2, t2));
    ScanWhole(NumberedLine, s, y + "\n\n" + (NumberedItem(n1, t1) + "\n" + NumberedItem(n2, t2)));
  }

  /** Paragraph rule: a text without line feeds and then exactly two line feeds. */
  lemma ParagraphOpening(s: string, y: string)
    requires |y| + 2 < |s| && s[..|y| + 2] == y + "\n\n" && s[|y| + 2] != '\n' && '\n' !in y
    ensures Scans(ParagraphBreak, s, 0, |y| + 2, y + "<br><br>")
  {
    var b := |y|;
    assert s[0..0 + |y|] == s[..b + 2][..b] == y;
    ScanPlain(ParagraphBreak, s, 0, y);
    assert s[b] == s[..b + 2][b] == '\n' && s[b + 1] == s[..b + 2][b + 1] == '\n';
    ParagraphHit(s, b);
    ScanChain(ParagraphBreak, s, 0, b, b + 2, y, "<br><br>");
  }

  /** Paragraph rule: a line feed followed by something else is copied. */
  lemma LoneLineFeed(s: string, e: nat, k: nat)
    requires k == e + 1
    requires k < |s| && s[e] == '\n' && s[k] != '\n'
    ensures Scans(ParagraphBreak, s, e, k, "\n")
  {
    SpanExact(s, e, k, Newline);
    ScanMiss(ParagraphBreak, s, e);
  }

  /** Paragraph rule: a single line feed between two texts without one stays. */
  lemma ParagraphSingle(s: string, i: nat, a: string, c: string)
    requires i <= |s| && s[i..] == a + "\n" + c
    requires '\n' !in a && '\n' !in c && |c| > 0
    ensures Scans(ParagraphBreak, s, i, |s|, a + "\n" + c)
  {
    var k := i + |a| + 1;
    TextThenLineFeed(s, i, a, c, k);
    assert s[k..] == c + "";
    PlainPiece(ParagraphBreak, s, k, c, "", |s|);
    ScanChain(ParagraphBreak, s, i, k, |s|, a + "\n", c);
  }

  /** Paragraph rule: a text without line feeds, then a lone line feed. */
  lemma TextThenLineFeed(s: string, i: nat, a: string, c: string, k: nat)
    requires k == i + |a| + 1
    requires i <= |s| && s[i..] == a + "\n" + c
    requires '\n' !in a && |c| > 0 && c[0] != '\n'
    ensures k <= |s| && s[k..] == c
    ensures Scans(ParagraphBreak, s, i, k, a + "\n")
  {
    var e := i + |a|;
    assert s[i..] == a + ("\n" + c);
    PlainPiece(ParagraphBreak, s, i, a, "\n" + c, e);
    LineFeedPiece(s, e, c, k);
    ScanChain(ParagraphBreak, s, i, e, k, a, "\n");
  }

  /** A piece without the first character of the pattern, followed by `y`. */
  lemma PlainPiece(pat: Pattern, s: string, i: nat, x: string, y: string, e: nat)
    requires e == i + |x|
    requires pat == Bold || pat == ParagraphBreak || pat == LineBreak
    requires i <= |s| && s[i..] == x + y && Lead(pat) !in x
    ensures |s| == e + |y| && s[e..] == y
    ensures Scans(pat, s, i, e, x)
  {
    SliceAt(s, i, x, y);
    ScanPlain(pat, s, i, x);
  }

  /** Paragraph rule: a lone line feed followed by `c`. */
  lemma LineFeedPiece(s: string, e: nat, c: string, k: nat)
    requires k == e + 1
    requires e <= |s| && s[e..] == "\n" + c && |c| > 0 && c[0] != '\n'
    ensures k <= |s| && s[k..] == c
    ensures Scans(ParagraphBreak, s, e, k, "\n")
  {
    SliceAt(s, e, "\n", c);
    assert s[k] == s[k..][0];
    LoneLineFeed(s, e, k);
  }

  /** Paragraph rule: the blank line becomes two break elements, the single
      line feed between the items stays. */
  lemma ParagraphBetween(y: string, a: string, c: string)
    requires '\n' !in y && '\n' !in a && '\n' !in c
    requires |a| > 0 && |c| > 0
    ensures ReplaceAll(ParagraphBreak, y + "\n\n" + (a + "\n" + c)) == y + "<br><br>" + (a + "\n" + c)
  {
    var s := y + "\n\n" + (a + "\n" + c);
    var b := |y| + 2;
    assert s[..b] == y + "\n\n" && s[b] == a[0];
    ParagraphOpening(s, y);
    assert s[b..] == a + "\n" + c;
    ParagraphSingle(s, b, a, c);
    ScanChain(ParagraphBreak, s, 0, b, |s|, y + "<br><br>", a + "\n" + c);
    ScanWhole(ParagraphBreak, s, y + "<br><br>" + (a + "\n" + c));
  }

  /** Line-break rule: one line feed between two texts without one. */
  lemma LineBreakBetween(a: string, c: string)
    requires '\n' !in a && '\n' !in c
    ensures ReplaceAll(LineBreak, a + "\n" + c) == a + "<br>" + c
  {
    var s := a + "\n" + c;
    var b := |a|;
    assert s[..b] == a;
    ScanPlain(LineBreak, s, 0, a);
    assert s[b] == '\n';
    ScanHit(LineBreak, s, b, Hit(b + 1, "<br>"));
    assert s[b + 1..b + 1 + |c|] == c;
    ScanPlain(LineBreak, s, b + 1, c);
    ScanChain(LineBreak, s, 0, b, b + 1, a, "<br>");
    ScanChain(LineBreak, s, 0, b + 1, b + 1 + |c|, a + "<br>", c);
    ScanWhole(LineBreak, s, a + "<br>" + c);
  }

  /** The four rules in order on a reply made of a bold phrase and a line
      remainder, a blank line, and a two-item numbered list. */
  lemma FormatBoldParagraphList(t: string, w: string, n1: string, t1: string, n2: string, t2: string)
    requires '*' !in t && NoLineTerminator(t) && '*' !in w && NoLineTerminator(w)
    requires ItemLine(n1, t1) && ItemLine(n2, t2)
    ensures FormatMarkdown("**" + t + "**" + (w + "\n\n" + (n1 + ". " + t1 + "\n" + n2 + ". " + t2)))
            == "<strong>" + t + "</strong>" + w + "<br><br>" + NumberedItem(n1, t1) + "<br>" + NumberedItem(n2, t2)
  {
    var items := n1 + ". " + t1 + "\n" + n2 + ". " + t2;
    var y := "<strong>" + t + "</strong>" + w;
    var i1 := NumberedItem(n1, t1);
    var i2 := NumberedItem(n2, t2);
    NotInClass(n1, Digit, '*');
    NotInClass(n2, Digit, '*');
    StrongHasNoLineFeed(t, w);
    ItemHasNoLineFeed(n1, t1);
    ItemHasNoLineFeed(n2, t2);
    BoldStage(t, w, items);
    NumberedAfterBlankLine(y, n1, t1, n2, t2);
    ParagraphBetween(y, i1, i2);
    LineBreakStage(y, i1, i2);
  }

  lemma StrongHasNoLineFeed(t: string, w: string)
    requires NoLineTerminator(t) && NoLineTerminator(w)
    ensures var y := "<strong>" + t + "</strong>" + w; NoLineTerminator(y) && !IsDigit(y[0])
  {
  }

  lemma ItemHasNoLineFeed(n: string, t: string)
    requires ItemLine(n, t)
    ensures '\n' !in NumberedItem(n, t)
  {
    NotInClass(n, Digit, '\n');
  }

  /** Bold rule on the whole reply: only the leading phrase changes. */
  lemma BoldStage(t: string, w: string, items: string)
    requires '*' !in t && NoLineTerminator(t) && '*' !in w && '*' !in items
    ensures ReplaceAll(Bold, "**" + t + "**" + (w + "\n\n" + items)) == "<strong>" + t + "</strong>" + w + "\n\n" + items
  {
    BoldThenPlain(t, w + "\n\n" + items);
  }

  /** Line-break rule on the reply after the paragraph rule. */
  lemma LineBreakStage(y: string, i1: string, i2: string)
    requires '\n' !in y && '\n' !in i1 && '\n' !in i2
    ensures ReplaceAll(LineBreak, y + "<br><br>" + (i1 + "\n" + i2)) == y + "<br><br>" + i1 + "<br>" + i2
  {
    assert y + "<br><br>" + (i1 + "\n" + i2) == y + "<br><br>" + i1 + "\n" + i2;
    LineBreakBetween(y + "<br><br>" + i1, i2);
  }

  /** The worked example: `**Hi** there`, a blank line, then items 1 and 2. */
  lemma FormatExample()
    ensures FormatMarkdown("**Hi** there" + "\n\n" + "1. First" + "\n" + "2. Second")
            == "<strong>Hi</strong> there" + "<br><br>"
               + "<p><strong>1.</strong> First</p>" + "<br>"
               + "<p><strong>2.</strong> Second</p>"
  {
    assert ItemLine("1", "First") && ItemLine("2", "Second");
    FormatBoldParagraphList("Hi", " there", "1", "First", "2", "Second");
    ExampleInput();
    ExampleOutput();
  }

  lemma ExampleInput()
    ensures "**Hi** there" + "\n\n" + "1. First" + "\n" + "2. Second"
            == "**" + "Hi" + "**" + (" there" + "\n\n" + ("1" + ". " + "First" + "\n" + "2" + ". " + "Second"))
  {
  }

  lemma ExampleOutput()
    ensures NumberedItem("1", "First") == "<p><strong>1.</strong> First</p>"
    ensures NumberedItem("2", "Second") == "<p><strong>2.</strong> Second</p>"
    ensures "<strong>" + "Hi" + "</strong>" + " there" == "<strong>Hi</strong> there"
  {
    FirstItemOutput();
    SecondItemOutput();
    BoldOutput();
  }

  lemma FirstItemOutput()
    ensures NumberedItem("1", "First") == "<p><strong>1.</strong> First</p>"
  {
  }

  lemma SecondItemOutput()
    ensures NumberedItem("2", "Second") == "<p><strong>2.</strong> Second</p>"
  {
  }

  lemma BoldOutput()
    ensures "<strong>" + "Hi" + "</strong>" + " there" == "<strong>Hi</strong> there"
  {
  }
}
