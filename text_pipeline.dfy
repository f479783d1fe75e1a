/** The three text rewriters of chatbot.js (stripCitations,
    repairInlineCitations, formatMarkdown) as explicit left-to-right scanners.

    Each rewriter is a chain of `String.prototype.replace` calls with a global
    regular expression. A global replace finds the leftmost match, substitutes
    it, resumes scanning right after it and copies every character that no
    match covers; `ReplaceFrom` is that loop, written once for all seven
    patterns. `MatchAt` is the regular-expression engine restricted to the
    seven patterns: each pattern's backtracking was worked out by hand and
    turns out to be deterministic (a greedy run is always maximal, a lazy
    group always stops at the first place its closing text occurs), so every
    matcher below is a straight sequence of maximal runs and tests. */
module TextPipeline {
  import opened Js

  /** The character classes the patterns use. */
  datatype CharClass =
    | Digit       // `\d`
    | Space       // `\s`
    | LineChar    // `.`: anything but a line terminator
    | NameChar    // anything but the dagger and the two lenticular brackets
    | NoteChar    // anything but the two lenticular brackets
    | Newline     // a line feed only

  predicate InClass(c: char, k: CharClass) {
    match k
    case Digit => IsDigit(c)
    case Space => IsSpace(c)
    case LineChar => !IsLineTerminator(c)
    case NameChar => c != '†' && c != '【' && c != '】'
    case NoteChar => c != '【' && c != '】'
    case Newline => c == '\n'
  }

  /** End of the longest run of `k`-characters starting at `i`: a greedy `k*`. */
  function Span(s: string, i: nat, k: CharClass): (j: nat)
    requires i <= |s|
    ensures i <= j <= |s|
    ensures j == |s| || !InClass(s[j], k)
    decreases |s| - i
  {
    if i < |s| && InClass(s[i], k) then Span(s, i + 1, k) else i
  }

  /** The seven global patterns of chatbot.js, in the order they are applied. */
  datatype Pattern =
    | Citation        // stripCitations: a citation marker, deleted
    | SourceDoubled   // repairInlineCitations, first rule: `[Source: X` + two closing + one opening bracket + `n:m]`
    | SourceSingle    // repairInlineCitations, second rule: the same with one closing bracket
    | Bold            // formatMarkdown: `**x**` becomes a strong element
    | NumberedLine    // formatMarkdown: a line `N. rest` becomes a numbered paragraph
    | ParagraphBreak  // formatMarkdown: two or more line feeds become two break elements
    | LineBreak       // formatMarkdown: each remaining line feed becomes one break element

  /** A match ends (exclusively) at `end` and is replaced by `replacement`. */
  datatype Hit = Hit(end: nat, replacement: string)

  /** The texts a lazy group `(.*?)` waits for. */
  datatype Closer = DoubledBracket | SingleBracket | Stars

  /** A closer found at `at`, with the two index groups it captured, ending at `end`. */
  datatype Close = Close(at: nat, segment: string, position: string, end: nat)

  /** The closer `c` at exactly position `p`. For the two bracket closers this
      is the bracket text followed by `digits:digits]`; for `Stars` it is `**`. */
  function CloseAt(c: Closer, s: string, p: nat): (r: Option<Close>)
    requires p <= |s|
    ensures r.Some? ==> r.value.at == p && p < r.value.end <= |s|
  {
    match c
    case Stars =>
      if p + 2 <= |s| && s[p] == '*' && s[p + 1] == '*' then Some(Close(p, "", "", p + 2)) else None
    case DoubledBracket =>
      if p + 3 <= |s| && s[p] == '】' && s[p + 1] == '】' && s[p + 2] == '【' then IndexPair(s, p, p + 3) else None
    case SingleBracket =>
      if p + 2 <= |s| && s[p] == '】' && s[p + 1] == '【' then IndexPair(s, p, p + 2) else None
  }

  /** `(\d+):(\d+)]` starting at `q`, reported as a closer found at `p`. */
  function IndexPair(s: string, p: nat, q: nat): (r: Option<Close>)
    requires p < q <= |s|
    ensures r.Some? ==> r.value.at == p && q < r.value.end <= |s|
  {
    var a := Span(s, q, Digit);
    if a == q || a == |s| || s[a] != ':' then None
    else
      var b := Span(s, a + 1, Digit);
      if b == a + 1 || b == |s| || s[b] != ']' then None
      else Some(Close(p, s[q..a], s[a + 1..b], b + 1))
  }

  /** A lazy `(.*?)` starting at `p` followed by the closer `c`: the first
      position at or after `p` where the closer occurs, as long as no line
      terminator has to be crossed to get there. */
  function LazyUntil(c: Closer, s: string, p: nat): (r: Option<Close>)
    requires p <= |s|
    ensures r.Some? ==> p <= r.value.at < r.value.end <= |s| && CloseAt(c, s, r.value.at) == r
    decreases |s| - p
  {
    match CloseAt(c, s, p)
    case Some(h) => Some(h)
    case None => if p == |s| || IsLineTerminator(s[p]) then None else LazyUntil(c, s, p + 1)
  }

  /** `【` digits `:` digits `†` name, optionally `†` note, then `】`, deleted. */
  function CitationAt(s: string, i: nat): (r: Option<Hit>)
    requires i <= |s|
    ensures r.Some? ==> i < r.value.end <= |s| && r.value.replacement == ""
  {
    if i == |s| || s[i] != '【' then None else CitationIndices(s, i + 1)
  }

  /** The part of a citation after `【`: digits `:` digits `†`, then the name. */
  function CitationIndices(s: string, q: nat): (r: Option<Hit>)
    requires q <= |s|
    ensures r.Some? ==> q < r.value.end <= |s| && r.value.replacement == ""
  {
    var a := Span(s, q, Digit);
    if a == q || a == |s| || s[a] != ':' then None
    else
      var b := Span(s, a + 1, Digit);
      if b == a + 1 || b == |s| || s[b] != '†' then None
      else CitationName(s, b + 1)
  }

  /** A non-empty name, then either `】` or `†` and a note. The name run is
      maximal: a shorter name would leave a name character where `】` or `†`
      is needed. */
  function CitationName(s: string, q: nat): (r: Option<Hit>)
    requires q <= |s|
    ensures r.Some? ==> q < r.value.end <= |s| && r.value.replacement == ""
  {
    var n := Span(s, q, NameChar);
    if n == q || n == |s| then None
    else if s[n] == '】' then Some(Hit(n + 1, ""))
    else if s[n] != '†' then None
    else CitationNote(s, n + 1)
  }

  /** The optional note, then `】`. */
  function CitationNote(s: string, q: nat): (r: Option<Hit>)
    requires q <= |s|
    ensures r.Some? ==> q < r.value.end <= |s| && r.value.replacement == ""
  {
    var e := Span(s, q, NoteChar);
    if e < |s| && s[e] == '】' then Some(Hit(e + 1, "")) else None
  }

  /** The canonical marker the repair rules produce. */
  function CanonicalMarker(segment: string, position: string, name: string): string {
    "【" + segment + ":" + position + "†" + name + "†lines】"
  }

  /** The literal `[Source:` at `i`. */
  predicate SourceOpensAt(s: string, i: nat) {
    i + 8 <= |s| && s[i..i + 8] == "[Source:"
  }

  /** `[Source:`, white space, a lazy name, then the bracket closer `c`. */
  function SourceAt(c: Closer, s: string, i: nat): (r: Option<Hit>)
    requires i <= |s|
    ensures r.Some? ==> i < r.value.end <= |s|
  {
    if !SourceOpensAt(s, i) then None
    else
      var k := Span(s, i + 8, Space);
      match LazyUntil(c, s, k)
      case None => None
      case Some(h) => Some(Hit(h.end, CanonicalMarker(h.segment, h.position, s[k..h.at])))
  }

  /** `**`, a lazy text, `**`. */
  function BoldAt(s: string, i: nat): (r: Option<Hit>)
    requires i <= |s|
    ensures r.Some? ==> i < r.value.end <= |s|
  {
    if !(i + 2 <= |s| && s[i] == '*' && s[i + 1] == '*') then None
    else
      match LazyUntil(Stars, s, i + 2)
      case None => None
      case Some(h) => Some(Hit(h.end, "<strong>" + s[i + 2..h.at] + "</strong>"))
  }

  /** Multiline `^`: the start of the input or just after a line terminator. */
  predicate AtLineStart(s: string, i: nat)
    requires i <= |s|
  {
    i == 0 || IsLineTerminator(s[i - 1])
  }

  /** At a line start: digits, `.`, white space (which may include line
      feeds), then the rest of the line up to the next line terminator. */
  function NumberedLineAt(s: string, i: nat): (r: Option<Hit>)
    requires i <= |s|
    ensures r.Some? ==> i < r.value.end <= |s|
  {
    if !AtLineStart(s, i) then None
    else
      var a := Span(s, i, Digit);
      if a == i || a == |s| || s[a] != '.' then None
      else
        var w := Span(s, a + 1, Space);
        if w == a + 1 then None
        else
          var q := Span(s, w, LineChar);
          Some(Hit(q, "<p><strong>" + s[i..a] + ".</strong> " + s[w..q] + "</p>"))
  }

  /** Two or more line feeds. */
  function ParagraphBreakAt(s: string, i: nat): (r: Option<Hit>)
    requires i <= |s|
    ensures r.Some? ==> i < r.value.end <= |s|
  {
    var j := Span(s, i, Newline);
    if j >= i + 2 then Some(Hit(j, "<br><br>")) else None
  }

  /** One line feed. */
  function LineBreakAt(s: string, i: nat): (r: Option<Hit>)
    requires i <= |s|
    ensures r.Some? ==> i < r.value.end <= |s|
  {
    if i < |s| && s[i] == '\n' then Some(Hit(i + 1, "<br>")) else None
  }

  /** The match of `pat` that starts exactly at `i`, if any. */
  function MatchAt(pat: Pattern, s: string, i: nat): (r: Option<Hit>)
    requires i <= |s|
    ensures r.Some? ==> i < r.value.end <= |s|
  {
    match pat
    case Citation => CitationAt(s, i)
    case SourceDoubled => SourceAt(DoubledBracket, s, i)
    case SourceSingle => SourceAt(SingleBracket, s, i)
    case Bold => BoldAt(s, i)
    case NumberedLine => NumberedLineAt(s, i)
    case ParagraphBreak => ParagraphBreakAt(s, i)
    case LineBreak => LineBreakAt(s, i)
  }

  /** The match the engine reports at each position of `s`: `ms[m]` is the
      match of `pat` that starts at `m`, if any. */
  function Matches(pat: Pattern, s: string): (ms: seq<Option<Hit>>)
    ensures MatchTable(ms, s)
  {
    seq(|s|, m requires 0 <= m < |s| => MatchAt(pat, s, m))
  }

  /** One entry per position, every match ending after its start and inside the text. */
  predicate MatchTable(ms: seq<Option<Hit>>, s: string) {
    && |ms| == |s|
    && forall m :: 0 <= m < |s| && ms[m].Some? ==> m < ms[m].value.end <= |s|
  }

  /** The replace loop from position `i` on: where a match starts, emit its
      replacement and resume at its end; elsewhere copy one character. Only
      the entries of `ms` at the positions reached are consulted. */
  function Scan(ms: seq<Option<Hit>>, s: string, i: nat): string
    requires MatchTable(ms, s) && i <= |s|
    decreases |s| - i
  {
    if i == |s| then ""
    else
      match ms[i]
      case Some(h) => h.replacement + Scan(ms, s, h.end)
      case None => [s[i]] + Scan(ms, s, i + 1)
  }

  /** Global replace of `pat`, from position `i` of `s` on. Matches are tried
      against the whole input, so `^` sees the character before `i`. */
  function ReplaceFrom(pat: Pattern, s: string, i: nat): string
    requires i <= |s|
  {
    Scan(Matches(pat, s), s, i)
  }

  function ReplaceAll(pat: Pattern, s: string): string {
    ReplaceFrom(pat, s, 0)
  }

  /** stripCitations (chatbot.js:36-38). */
  function StripCitations(s: string): string {
    ReplaceAll(Citation, s)
  }

  /** repairInlineCitations (chatbot.js:30-34): the doubled-bracket rule first. */
  function RepairInlineCitations(s: string): string {
    ReplaceAll(SourceSingle, ReplaceAll(SourceDoubled, s))
  }

  /** formatMarkdown (chatbot.js:22-28): bold, numbered lines, paragraph breaks, line breaks. */
  function FormatMarkdown(s: string): string {
    ReplaceAll(LineBreak, ReplaceAll(ParagraphBreak, ReplaceAll(NumberedLine, ReplaceAll(Bold, s))))
  }
}
