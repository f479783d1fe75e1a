/** Properties of the reply-text rewriters of chatbot.js. */
module TextPipelineProofs {
  import opened Js
  import opened SeqFacts
  import opened TextPipeline

  // ---------------------------------------------------------------------------
  // The scanner in general

  /** Where the table has no match in `[i, j)`, the scan copies `s[i..j]` unchanged. */
  lemma {:induction false} ScanSkips(ms: seq<Option<Hit>>, s: string, i: nat, j: nat)
    requires MatchTable(ms, s) && i <= j <= |s|
    requires forall m :: i <= m < j ==> ms[m].None?
    ensures Scan(ms, s, i) == s[i..j] + Scan(ms, s, j)
    decreases j - i
  {
    if i < j {
      ScanSkips(ms, s, i + 1, j);
      SliceCons(s, i, j);
      Assoc([s[i]], s[i + 1..j], Scan(ms, s, j));
    }
  }

  /** Two tables that agree, shifted by `k`, on `s` and on its suffix `t`
      give the same scan there. */
  lemma {:induction false} ScanShift(ms: seq<Option<Hit>>, ns: seq<Option<Hit>>, s: string, t: string, k: nat, j: nat, p: nat)
    requires |s| == k + |t| && p == k + j <= |s|
    requires MatchTable(ms, s) && MatchTable(ns, t)
    requires forall m :: 0 <= m < |t| ==> s[k + m] == t[m] && ms[k + m] == Shifted(ns[m], k)
    ensures Scan(ms, s, p) == Scan(ns, t, j)
    decreases |s| - p
  {
    if p < |s| {
      match ns[j]
      case Some(h) =>
        ScanShift(ms, ns, s, t, k, h.end, k + h.end);
        ShiftHit(ms, ns, s, t, k, j, p);
      case None =>
        ScanShift(ms, ns, s, t, k, j + 1, p + 1);
        ShiftMiss(ms, ns, s, t, k, j, p);
    }
  }

  /** One step of two scans that meet the same match. */
  lemma ShiftHit(ms: seq<Option<Hit>>, ns: seq<Option<Hit>>, s: string, t: string, k: nat, j: nat, p: nat)
    requires p == k + j < |s| && |s| == k + |t|
    requires MatchTable(ms, s) && MatchTable(ns, t)
    requires ns[j].Some? && ms[p] == Shifted(ns[j], k)
    requires Scan(ms, s, k + ns[j].value.end) == Scan(ns, t, ns[j].value.end)
    ensures Scan(ms, s, p) == Scan(ns, t, j)
  {
    TableHit(ms, s, p);
    TableHit(ns, t, j);
  }

  /** One step of two scans that both copy the same character. */
  lemma ShiftMiss(ms: seq<Option<Hit>>, ns: seq<Option<Hit>>, s: string, t: string, k: nat, j: nat, p: nat)
    requires p == k + j < |s| && |s| == k + |t|
    requires MatchTable(ms, s) && MatchTable(ns, t)
    requires ns[j].None? && ms[p].None? && s[p] == t[j]
    requires Scan(ms, s, p + 1) == Scan(ns, t, j + 1)
    ensures Scan(ms, s, p) == Scan(ns, t, j)
  {
    TableMiss(ms, s, p);
    TableMiss(ns, t, j);
  }

  lemma TableHit(ms: seq<Option<Hit>>, s: string, i: nat)
    requires MatchTable(ms, s) && i < |s| && ms[i].Some?
    ensures Scan(ms, s, i) == ms[i].value.replacement + Scan(ms, s, ms[i].value.end)
  {
  }

  lemma TableMiss(ms: seq<Option<Hit>>, s: string, i: nat)
    requires MatchTable(ms, s) && i < |s| && ms[i].None?
    ensures Scan(ms, s, i) == [s[i]] + Scan(ms, s, i + 1)
  {
  }

  /** A table for `x + y` that agrees with one for `x` on the positions of `x`
      scans `x` as that one does, then goes on from `|x|`. */
  lemma {:induction false} ScanPrefix(ms: seq<Option<Hit>>, ns: seq<Option<Hit>>, x: string, y: string, i: nat)
    requires i <= |x|
    requires MatchTable(ms, x + y) && MatchTable(ns, x)
    requires forall m :: 0 <= m < |x| ==> ms[m] == ns[m]
    ensures Scan(ms, x + y, i) == Scan(ns, x, i) + Scan(ms, x + y, |x|)
    decreases |x| - i
  {
    if i < |x| {
      match ns[i]
      case Some(h) =>
        ScanPrefix(ms, ns, x, y, h.end);
        Assoc(h.replacement, Scan(ns, x, h.end), Scan(ms, x + y, |x|));
      case None =>
        ScanPrefix(ms, ns, x, y, i + 1);
        assert (x + y)[i] == x[i];
        Assoc([x[i]], Scan(ns, x, i + 1), Scan(ms, x + y, |x|));
    }
  }

  /** A scan whose every match is replaced by nothing only deletes. */
  lemma {:induction false} DeletingScan(ms: seq<Option<Hit>>, s: string, i: nat)
    requires MatchTable(ms, s) && i <= |s|
    requires forall m :: 0 <= m < |s| && ms[m].Some? ==> ms[m].value.replacement == ""
    ensures |Scan(ms, s, i)| <= |s| - i
    ensures multiset(Scan(ms, s, i)) <= multiset(s[i..])
    decreases |s| - i
  {
    if i < |s| {
      match ms[i]
      case Some(h) =>
        DeletingScan(ms, s, h.end);
        SuffixSplit(s, i, h.end);
      case None =>
        DeletingScan(ms, s, i + 1);
        SuffixCons(s, i);
    }
  }

  /** Where no match starts in `[i, j)`, the replace copies `s[i..j]` unchanged. */
  lemma ReplaceSkips(pat: Pattern, s: string, i: nat, j: nat)
    requires i <= j <= |s|
    requires forall m :: i <= m < j ==> MatchAt(pat, s, m).None?
    ensures ReplaceFrom(pat, s, i) == s[i..j] + ReplaceFrom(pat, s, j)
  {
    ScanSkips(Matches(pat, s), s, i, j);
  }

  /** Where a match starts at `i`, the replace emits its replacement and resumes at its end. */
  lemma ReplaceAtHit(pat: Pattern, s: string, i: nat)
    requires i <= |s| && MatchAt(pat, s, i).Some?
    ensures ReplaceFrom(pat, s, i)
            == MatchAt(pat, s, i).value.replacement + ReplaceFrom(pat, s, MatchAt(pat, s, i).value.end)
  {
  }

  /** Where no match starts at `i`, the replace copies `s[i]` and goes on at `i + 1`. */
  lemma ReplaceAtMiss(pat: Pattern, s: string, i: nat)
    requires i < |s| && MatchAt(pat, s, i).None?
    ensures ReplaceFrom(pat, s, i) == [s[i]] + ReplaceFrom(pat, s, i + 1)
  {
  }

  /** A pattern that matches nowhere leaves the text unchanged. */
  lemma ReplaceIdle(pat: Pattern, s: string)
    requires forall m :: 0 <= m < |s| ==> MatchAt(pat, s, m).None?
    ensures ReplaceAll(pat, s) == s
  {
    ReplaceSkips(pat, s, 0, |s|);
    assert s[0..|s|] == s;
  }

  lemma {:induction false} SpanExact(s: string, i: nat, j: nat, k: CharClass)
    requires i <= j <= |s|
    requires forall m :: i <= m < j ==> InClass(s[m], k)
    requires j == |s| || !InClass(s[j], k)
    ensures Span(s, i, k) == j
    decreases j - i
  {
    if i < j {
      SpanExact(s, i + 1, j, k);
    }
  }

  lemma {:induction false} SpanShift(s: string, k: nat, j: nat, cls: CharClass)
    requires k + j <= |s|
    ensures Span(s, k + j, cls) == k + Span(s[k..], j, cls)
    decreases |s| - k - j
  {
    if k + j < |s| && InClass(s[k + j], cls) {
      SpanShift(s, k, j + 1, cls);
    }
  }

  /** A run of `cls` characters stops at the end of `x` when `y` begins with a character outside `cls`. */
  lemma {:induction false} SpanBarrier(x: string, y: string, i: nat, cls: CharClass)
    requires i <= |x|
    requires y == [] || !InClass(y[0], cls)
    ensures Span(x + y, i, cls) == Span(x, i, cls)
    decreases |x| - i
  {
    if i < |x| && InClass(x[i], cls) {
      SpanBarrier(x, y, i + 1, cls);
    }
  }

  // ---------------------------------------------------------------------------
  // stripCitations

  /** A citation marker: `【segment:position†name】` or `【segment:position†name†note】`. */
  function Marker(segment: string, position: string, name: string, note: Option<string>): string {
    "【" + segment + ":" + position + "†" + name + NoteText(note) + "】"
  }

  function NoteText(note: Option<string>): string {
    match note
    case None => ""
    case Some(x) => "†" + x
  }

  predicate AllIn(s: string, k: CharClass) {
    forall m :: 0 <= m < |s| ==> InClass(s[m], k)
  }

  /** What the stripping pattern accepts: two non-empty digit runs, a
      non-empty name without daggers or brackets, and a note without brackets. */
  predicate WellFormedMarker(segment: string, position: string, name: string, note: Option<string>) {
    && |segment| > 0 && AllIn(segment, Digit)
    && |position| > 0 && AllIn(position, Digit)
    && |name| > 0 && AllIn(name, NameChar)
    && (note.Some? ==> AllIn(note.value, NoteChar))
  }

  function Shifted(h: Option<Hit>, k: nat): Option<Hit> {
    match h
    case None => None
    case Some(x) => Some(Hit(k + x.end, x.replacement))
  }

  /** The citation pattern only looks forward: matching at `p` inside `s` is
      matching at `p - k` inside `s[k..]`, shifted by `k`. */
  lemma CitationShift(s: string, k: nat, j: nat, p: nat)
    requires p == k + j <= |s|
    ensures CitationAt(s, p) == Shifted(CitationAt(s[k..], j), k)
  {
    if p < |s| {
      IndicesShift(s, k, j + 1, p + 1);
    }
  }

  lemma IndicesShift(s: string, k: nat, q: nat, p: nat)
    requires p == k + q <= |s|
    ensures CitationIndices(s, p) == Shifted(CitationIndices(s[k..], q), k)
  {
    var t := s[k..];
    SpanShiftTo(s, k, q, p, Digit);
    var a, a' := Span(t, q, Digit), Span(s, p, Digit);
    if a < |t| {
      assert s[a'] == t[a];
      if a != q && s[a'] == ':' {
        SecondIndexShift(s, k, a + 1, a' + 1);
      }
    }
  }

  /** The second run of digits and the `†` after it. */
  lemma SecondIndexShift(s: string, k: nat, q: nat, p: nat)
    requires p == k + q <= |s|
    ensures var b, b' := Span(s[k..], q, Digit), Span(s, p, Digit);
      && b' == k + b
      && (b < |s[k..]| ==> s[b'] == s[k..][b])
      && (b < |s[k..]| ==> CitationName(s, b' + 1) == Shifted(CitationName(s[k..], b + 1), k))
  {
    var t := s[k..];
    SpanShiftTo(s, k, q, p, Digit);
    var b, b' := Span(t, q, Digit), Span(s, p, Digit);
    if b < |t| {
      assert s[b'] == t[b];
      NameShift(s, k, b + 1, b' + 1);
    }
  }

  lemma NameShift(s: string, k: nat, q: nat, p: nat)
    requires p == k + q <= |s|
    ensures CitationName(s, p) == Shifted(CitationName(s[k..], q), k)
  {
    var t := s[k..];
    SpanShiftTo(s, k, q, p, NameChar);
    var n, n' := Span(t, q, NameChar), Span(s, p, NameChar);
    if n < |t| {
      assert s[n'] == t[n];
      NoteShift(s, k, n + 1, n' + 1);
    }
  }

  lemma NoteShift(s: string, k: nat, q: nat, p: nat)
    requires p == k + q <= |s|
    ensures CitationNote(s, p) == Shifted(CitationNote(s[k..], q), k)
  {
    SpanShiftTo(s, k, q, p, NoteChar);
    var n, n' := Span(s[k..], q, NoteChar), Span(s, p, NoteChar);
    if n < |s[k..]| {
      assert s[n'] == s[k..][n];
    }
  }

  lemma SpanShiftTo(s: string, k: nat, j: nat, p: nat, cls: CharClass)
    requires p == k + j <= |s|
    ensures Span(s, p, cls) == k + Span(s[k..], j, cls)
  {
    SpanShift(s, k, j, cls);
  }

  /** The strip from `p` inside `s` is the strip from `p - k` inside `s[k..]`. */
  lemma StripShift(s: string, k: nat, j: nat, p: nat)
    requires p == k + j <= |s|
    ensures ReplaceFrom(Citation, s, p) == ReplaceFrom(Citation, s[k..], j)
  {
    var ms, ns := Matches(Citation, s), Matches(Citation, s[k..]);
    forall m | 0 <= m < |s| - k
      ensures s[k + m] == s[k..][m] && ms[k + m] == Shifted(ns[m], k)
    {
      CitationShift(s, k, m, k + m);
    }
    ScanShift(ms, ns, s, s[k..], k, j, p);
  }

  /** No character class of the citation pattern contains `【`, so a match
      never runs into a following `【`: cutting the text there changes nothing. */
  lemma CitationBarrier(x: string, y: string, i: nat)
    requires i < |x|
    requires y == [] || y[0] == '【'
    ensures CitationAt(x + y, i) == CitationAt(x, i)
  {
    if x[i] == '【' {
      IndicesBarrier(x, y, i + 1);
    }
  }

  lemma IndicesBarrier(x: string, y: string, q: nat)
    requires q <= |x|
    requires y == [] || y[0] == '【'
    ensures CitationIndices(x + y, q) == CitationIndices(x, q)
  {
    SpanBarrier(x, y, q, Digit);
    var a := Span(x, q, Digit);
    if a < |x| {
      assert (x + y)[a] == x[a];
      if a != q && x[a] == ':' {
        SecondIndexBarrier(x, y, a + 1);
      }
    } else if y != [] {
      assert (x + y)[a] == y[0];
    }
  }

  /** The second run of digits, the `†` and the name read the same with `y` after `x`. */
  lemma SecondIndexBarrier(x: string, y: string, q: nat)
    requires q <= |x|
    requires y == [] || y[0] == '【'
    ensures var b := Span(x, q, Digit);
      && Span(x + y, q, Digit) == b
      && (b < |x| ==> (x + y)[b] == x[b] && CitationName(x + y, b + 1) == CitationName(x, b + 1))
      && (b == |x| && y != [] ==> (x + y)[b] == '【')
  {
    SpanBarrier(x, y, q, Digit);
    var b := Span(x, q, Digit);
    if b < |x| {
      assert (x + y)[b] == x[b];
      NameBarrier(x, y, b + 1);
    }
  }

  lemma NameBarrier(x: string, y: string, q: nat)
    requires q <= |x|
    requires y == [] || y[0] == '【'
    ensures CitationName(x + y, q) == CitationName(x, q)
  {
    SpanBarrier(x, y, q, NameChar);
    var n := Span(x, q, NameChar);
    if n < |x| {
      SpanBarrier(x, y, n + 1, NoteChar);
    }
  }

  lemma StripBarrier(x: string, y: string)
    requires y == [] || y[0] == '【'
    ensures ReplaceFrom(Citation, x + y, 0) == StripCitations(x) + ReplaceFrom(Citation, x + y, |x|)
  {
    var ms, ns := Matches(Citation, x + y), Matches(Citation, x);
    forall m | 0 <= m < |x|
      ensures ms[m] == ns[m]
    {
      CitationBarrier(x, y, m);
    }
    ScanPrefix(ms, ns, x, y, 0);
  }

  /** A run `x` of class `cls` at `q`, ended by `c`, then `z`. */
  lemma RunThen(s: string, q: nat, x: string, c: char, z: string, a: nat, cls: CharClass)
    requires a == q + |x| && q <= |s| && s[q..] == x + ([c] + z)
    requires AllIn(x, cls) && !InClass(c, cls)
    ensures a < |s| && Span(s, q, cls) == a && s[a] == c && s[q..a] == x && s[a + 1..] == z
  {
    var u := s[q..];
    assert forall m :: q <= m < a ==> s[m] == u[m - q] == x[m - q];
    assert u[|x|..] == [c] + z;
    assert s[a..] == [c] + z;
    SpanExact(s, q, a, cls);
    assert s[q..a] == u[..|x|];
  }

  /** A note, then `】`: the match ends at `e`. */
  lemma NoteMatches(s: string, q: nat, x: string, post: string, e: nat)
    requires e == q + |x| + 1
    requires q <= |s| && s[q..] == x + ("】" + post) && AllIn(x, NoteChar)
    ensures CitationNote(s, q) == Some(Hit(e, ""))
  {
    RunThen(s, q, x, '】', post, e - 1, NoteChar);
    NoteEnds(s, q, e - 1, e);
  }

  lemma NoteEnds(s: string, q: nat, n: nat, e: nat)
    requires q <= n < |s| && Span(s, q, NoteChar) == n && s[n] == '】' && e == n + 1
    ensures CitationNote(s, q) == Some(Hit(e, ""))
  {
  }

  /** A name, the optional `†` and note, then `】`: the match ends at `e`. */
  lemma NameMatches(s: string, q: nat, name: string, note: Option<string>, post: string, e: nat)
    requires e == q + |name| + |NoteText(note)| + 1
    requires q <= |s| && s[q..] == name + (NoteText(note) + ("】" + post))
    requires |name| > 0 && AllIn(name, NameChar)
    requires note.Some? ==> AllIn(note.value, NoteChar)
    ensures CitationName(s, q) == Some(Hit(e, ""))
  {
    match note
    case None =>
      assert NoteText(note) + ("】" + post) == "】" + post;
      BareNameMatches(s, q, name, post, e);
    case Some(x) =>
      Assoc("†", x, "】" + post);
      NotedNameMatches(s, q, name, x, post, e);
  }

  lemma BareNameMatches(s: string, q: nat, name: string, post: string, e: nat)
    requires e == q + |name| + 1
    requires q <= |s| && s[q..] == name + ("】" + post)
    requires |name| > 0 && AllIn(name, NameChar)
    ensures CitationName(s, q) == Some(Hit(e, ""))
  {
    RunThen(s, q, name, '】', post, e - 1, NameChar);
    NameEnds(s, q, e - 1, e);
  }

  lemma NotedNameMatches(s: string, q: nat, name: string, x: string, post: string, e: nat)
    requires e == q + |name| + |x| + 2
    requires q <= |s| && s[q..] == name + ("†" + (x + ("】" + post)))
    requires |name| > 0 && AllIn(name, NameChar) && AllIn(x, NoteChar)
    ensures CitationName(s, q) == Some(Hit(e, ""))
  {
    var n := q + |name|;
    RunThen(s, q, name, '†', x + ("】" + post), n, NameChar);
    NoteMatches(s, n + 1, x, post, e);
    NameThenNote(s, q, n, e);
  }

  lemma NameEnds(s: string, q: nat, n: nat, e: nat)
    requires q < n < |s| && Span(s, q, NameChar) == n && s[n] == '】' && e == n + 1
    ensures CitationName(s, q) == Some(Hit(e, ""))
  {
  }

  lemma NameThenNote(s: string, q: nat, n: nat, e: nat)
    requires q < n < |s| && Span(s, q, NameChar) == n && s[n] == '†'
    requires CitationNote(s, n + 1) == Some(Hit(e, ""))
    ensures CitationName(s, q) == Some(Hit(e, ""))
  {
  }

  /** Two runs of digits around `:`, then `†`: the rest, from `e` on, is the name's. */
  lemma IndicesMatch(s: string, q: nat, segment: string, position: string, rest: string, e: nat)
    requires e == q + |segment| + |position| + 2
    requires q <= |s| && s[q..] == segment + (":" + (position + ("†" + rest)))
    requires |segment| > 0 && AllIn(segment, Digit)
    requires |position| > 0 && AllIn(position, Digit)
    ensures e <= |s| && s[e..] == rest
    ensures CitationIndices(s, q) == CitationName(s, e)
  {
    var a := q + |segment|;
    var b := a + 1 + |position|;
    RunThen(s, q, segment, ':', position + ("†" + rest), a, Digit);
    RunThen(s, a + 1, position, '†', rest, b, Digit);
    IndicesThen(s, q, a, b, e);
  }

  lemma IndicesThen(s: string, q: nat, a: nat, b: nat, e: nat)
    requires q < a < |s| && Span(s, q, Digit) == a && s[a] == ':'
    requires a + 1 < b < |s| && Span(s, a + 1, Digit) == b && s[b] == '†'
    requires e == b + 1
    ensures CitationIndices(s, q) == CitationName(s, e)
  {
  }

  /** The marker and what follows, nested the way the matchers read them. */
  lemma MarkerSplit(segment: string, position: string, name: string, note: Option<string>, post: string)
    ensures Marker(segment, position, name, note) + post
            == ['【'] + (segment + (":" + (position + ("†" + (name + (NoteText(note) + ("】" + post)))))))
    ensures |Marker(segment, position, name, note)| == 4 + |segment| + |position| + |name| + |NoteText(note)|
  {
    var t := NoteText(note);
    var w := "】" + post;
    Assoc("【" + segment + ":" + position + "†" + name + t, "】", post);
    Assoc("【" + segment + ":" + position + "†" + name, t, w);
    Assoc("【" + segment + ":" + position + "†", name, t + w);
    Assoc("【" + segment + ":" + position, "†", name + (t + w));
    Assoc("【" + segment + ":", position, "†" + (name + (t + w)));
    Assoc("【" + segment, ":", position + ("†" + (name + (t + w))));
    Assoc("【", segment, ":" + (position + ("†" + (name + (t + w)))));
  }

  lemma MarkerMatches(segment: string, position: string, name: string, note: Option<string>, post: string)
    requires WellFormedMarker(segment, position, name, note)
    ensures CitationAt(Marker(segment, position, name, note) + post, 0)
            == Some(Hit(|Marker(segment, position, name, note)|, ""))
  {
    var s := Marker(segment, position, name, note) + post;
    var rest := name + (NoteText(note) + ("】" + post));
    MarkerSplit(segment, position, name, note, post);
    assert s[0] == '【' && s[1..] == segment + (":" + (position + ("†" + rest)));
    var e := 1 + |segment| + |position| + 2;
    var m := |Marker(segment, position, name, note)|;
    IndicesMatch(s, 1, segment, position, rest, e);
    NameMatches(s, e, name, note, post, m);
    CitationOpens(s, Hit(m, ""));
  }

  lemma CitationOpens(s: string, h: Hit)
    requires 0 < |s| && s[0] == '【' && CitationIndices(s, 1) == Some(h)
    ensures CitationAt(s, 0) == Some(h)
  {
  }

  /** The converse of `MarkerMatches`: whatever the citation pattern matches
      is a well-formed marker, so stripping deletes markers and nothing else. */
  lemma {:induction false} MatchIsMarker(s: string, i: nat)
    requires i <= |s| && CitationAt(s, i).Some?
    ensures exists segment, position, name, note ::
      WellFormedMarker(segment, position, name, note) && s[i..CitationAt(s, i).value.end] == Marker(segment, position, name, note)
  {
    var a := Span(s, i + 1, Digit);
    var b := Span(s, a + 1, Digit);
    var n := Span(s, b + 1, NameChar);
    var end := CitationAt(s, i).value.end;
    MatchLayout(s, i, a, b, n, end);
    MarkerExists(s, i, a, b, n, end);
  }

  /** Where a citation match puts its delimiters, and what its runs hold. */
  lemma {:induction false} MatchLayout(s: string, i: nat, a: nat, b: nat, n: nat, end: nat)
    requires i <= |s| && CitationAt(s, i).Some? && end == CitationAt(s, i).value.end
    requires a == Span(s, i + 1, Digit) && b == Span(s, a + 1, Digit) && n == Span(s, b + 1, NameChar)
    ensures i + 1 < a < b && a + 1 < b < n && b + 1 < n < end <= |s|
    ensures s[i] == '【' && s[a] == ':' && s[b] == '†' && s[end - 1] == '】'
    ensures AllIn(s[i + 1..a], Digit) && AllIn(s[a + 1..b], Digit) && AllIn(s[b + 1..n], NameChar)
    ensures s[n] == '】' ==> end == n + 1
    ensures s[n] != '】' ==> n + 1 < end && s[n] == '†' && AllIn(s[n + 1..end - 1], NoteChar)
  {
    OpensFacts(s, i);
    IndicesFacts(s, i + 1, a, b);
    NameFacts(s, b + 1, n);
    SpanRun(s, i + 1, a, Digit);
    SpanRun(s, a + 1, b, Digit);
    SpanRun(s, b + 1, n, NameChar);
    if s[n] != '】' {
      var e := Span(s, n + 1, NoteChar);
      NoteFacts(s, n + 1, e);
      SpanRun(s, n + 1, e, NoteChar);
    }
  }

  /** A span laid out like a citation match is a well-formed marker. */
  lemma MarkerExists(s: string, i: nat, a: nat, b: nat, n: nat, end: nat)
    requires i + 1 < a < b && a + 1 < b < n && b + 1 < n < end <= |s|
    requires s[i] == '【' && s[a] == ':' && s[b] == '†' && s[end - 1] == '】'
    requires AllIn(s[i + 1..a], Digit) && AllIn(s[a + 1..b], Digit) && AllIn(s[b + 1..n], NameChar)
    requires s[n] == '】' ==> end == n + 1
    requires s[n] != '】' ==> n + 1 < end && s[n] == '†' && AllIn(s[n + 1..end - 1], NoteChar)
    ensures exists segment, position, name, note ::
      WellFormedMarker(segment, position, name, note) && s[i..end] == Marker(segment, position, name, note)
  {
    var note: Option<string> := if s[n] == '】' then None else Some(s[n + 1..end - 1]);
    MarkerFromPieces(s, i, a, b, n, end, note);
  }

  lemma OpensFacts(s: string, i: nat)
    requires i <= |s| && CitationAt(s, i).Some?
    ensures i < |s| && s[i] == '【' && CitationAt(s, i) == CitationIndices(s, i + 1)
  {
  }

  lemma IndicesFacts(s: string, q: nat, a: nat, b: nat)
    requires q <= |s| && CitationIndices(s, q).Some?
    requires a == Span(s, q, Digit) && b == Span(s, a + 1, Digit)
    ensures q < a < |s| && s[a] == ':' && a + 1 < b < |s| && s[b] == '†'
    ensures CitationIndices(s, q) == CitationName(s, b + 1)
  {
  }

  lemma NameFacts(s: string, q: nat, n: nat)
    requires q <= |s| && CitationName(s, q).Some? && n == Span(s, q, NameChar)
    ensures q < n < |s|
    ensures s[n] == '】' ==> CitationName(s, q) == Some(Hit(n + 1, ""))
    ensures s[n] != '】' ==> s[n] == '†' && CitationName(s, q) == CitationNote(s, n + 1)
  {
  }

  lemma NoteFacts(s: string, q: nat, e: nat)
    requires q <= |s| && CitationNote(s, q).Some? && e == Span(s, q, NoteChar)
    ensures q <= e < |s| && s[e] == '】' && CitationNote(s, q) == Some(Hit(e + 1, ""))
  {
  }

  /** The pieces between the delimiters form a well-formed marker. */
  lemma MarkerFromPieces(s: string, i: nat, a: nat, b: nat, n: nat, end: nat, note: Option<string>)
    requires i + 1 < a < b && a + 1 < b < n && b + 1 < n < end <= |s|
    requires s[i] == '【' && s[a] == ':' && s[b] == '†' && s[end - 1] == '】'
    requires AllIn(s[i + 1..a], Digit) && AllIn(s[a + 1..b], Digit) && AllIn(s[b + 1..n], NameChar)
    requires note.None? ==> end == n + 1
    requires note.Some? ==> n + 1 < end && s[n] == '†' && note.value == s[n + 1..end - 1] && AllIn(note.value, NoteChar)
    ensures WellFormedMarker(s[i + 1..a], s[a + 1..b], s[b + 1..n], note)
    ensures s[i..end] == Marker(s[i + 1..a], s[a + 1..b], s[b + 1..n], note)
  {
    MarkerParts(s, i, a, b, n, end, s[i + 1..a], s[a + 1..b], s[b + 1..n], note);
  }

  /** The characters of a greedy run all belong to its class. */
  lemma SpanRun(s: string, p: nat, j: nat, k: CharClass)
    requires p <= |s| && j == Span(s, p, k)
    ensures AllIn(s[p..j], k)
  {
    SpanAll(s, p, k);
    forall m | 0 <= m < j - p ensures InClass(s[p..j][m], k) {
      assert s[p..j][m] == s[p + m];
    }
  }

  lemma {:induction false} SpanAll(s: string, p: nat, k: CharClass)
    requires p <= |s|
    ensures forall m :: p <= m < Span(s, p, k) ==> InClass(s[m], k)
    decreases |s| - p
  {
    if p < |s| && InClass(s[p], k) {
      SpanAll(s, p + 1, k);
    }
  }

  /** A matched span cut at its delimiters is the marker of its pieces. */
  lemma MarkerParts(s: string, i: nat, a: nat, b: nat, n: nat, end: nat,
                    segment: string, position: string, name: string, note: Option<string>)
    requires i < a < b < n < end <= |s|
    requires s[i] == '【' && s[a] == ':' && s[b] == '†' && s[end - 1] == '】'
    requires segment == s[i + 1..a] && position == s[a + 1..b] && name == s[b + 1..n]
    requires note.None? ==> end == n + 1
    requires note.Some? ==> n + 1 < end && s[n] == '†' && note.value == s[n + 1..end - 1]
    ensures s[i..end] == Marker(segment, position, name, note)
  {
    var z0 := NoteText(note) + ("】" + "");
    NoteTail(s, n, end, note, z0);
    var z1 := name + z0;
    Glue(s, b + 1, n, end, name, z0);
    var z2 := "†" + z1;
    Glue(s, b, b + 1, end, "†", z1);
    var z3 := position + z2;
    Glue(s, a + 1, b, end, position, z2);
    var z4 := ":" + z3;
    Glue(s, a, a + 1, end, ":", z3);
    var z5 := segment + z4;
    Glue(s, i + 1, a, end, segment, z4);
    Glue(s, i, i + 1, end, ['【'], z5);
    MarkerSplit(segment, position, name, note, "");
    assert Marker(segment, position, name, note) + "" == Marker(segment, position, name, note);
  }

  /** What follows the name: the optional `†` and note, then `】`. */
  lemma NoteTail(s: string, n: nat, end: nat, note: Option<string>, z: string)
    requires n < end <= |s| && s[end - 1] == '】'
    requires note.None? ==> end == n + 1
    requires note.Some? ==> n + 1 < end && s[n] == '†' && note.value == s[n + 1..end - 1]
    requires z == NoteText(note) + ("】" + "")
    ensures s[n..end] == z
  {
    assert "】" + "" == "】";
    if note.Some? {
      Glue(s, n + 1, end - 1, end, note.value, "】");
      Glue(s, n, n + 1, end, "†", note.value + "】");
      Assoc("†", note.value, "】");
    }
  }

  /** Two adjacent slices glue into one. */
  lemma Glue(s: string, p: nat, q: nat, r: nat, x: string, y: string)
    requires p <= q <= r <= |s| && s[p..q] == x && s[q..r] == y
    ensures s[p..r] == x + y
  {
    SliceSplit(s, p, q, r);
  }

  /** A match of the whole of `m`, beginning with `【`, is deleted, and the
      text on either side is stripped as if `m` were not there. */
  lemma StripAroundMatch(pre: string, m: string, post: string)
    requires |m| > 0 && m[0] == '【'
    requires CitationAt(m + post, 0) == Some(Hit(|m|, ""))
    ensures StripCitations(pre + m + post) == StripCitations(pre) + StripCitations(post)
  {
    var rest := m + post;
    var s := pre + rest;
    assert pre + m + post == s;
    assert s[|pre|..] == rest;
    assert rest[|m|..] == post;
    calc {
      StripCitations(s);
      ReplaceFrom(Citation, s, 0);
      { StripBarrier(pre, rest); }
      ReplaceFrom(Citation, pre, 0) + ReplaceFrom(Citation, s, |pre|);
      { StripShift(s, |pre|, 0, |pre|); }
      StripCitations(pre) + ReplaceFrom(Citation, rest, 0);
      { ReplaceAtHit(Citation, rest, 0); }
      StripCitations(pre) + ReplaceFrom(Citation, rest, |m|);
      { StripShift(rest, |m|, 0, |m|); }
      StripCitations(pre) + StripCitations(post);
    }
  }

  /** stripCitations deletes a well-formed marker wherever it stands, and the
      text on either side is stripped as if the marker were not there. */
  lemma StripRemovesMarker(pre: string, segment: string, position: string, name: string,
                           note: Option<string>, post: string)
    requires WellFormedMarker(segment, position, name, note)
    ensures StripCitations(pre + Marker(segment, position, name, note) + post)
            == StripCitations(pre) + StripCitations(post)
  {
    MarkerMatches(segment, position, name, note, post);
    StripAroundMatch(pre, Marker(segment, position, name, note), post);
  }

  /** Text without an opening lenticular bracket has nothing to strip. */
  lemma StripLeavesUnmarkedText(s: string)
    requires forall m :: 0 <= m < |s| ==> s[m] != '【'
    ensures StripCitations(s) == s
  {
    ReplaceIdle(Citation, s);
  }

  /** stripCitations only deletes: its result is never longer than its input
      and holds no character the input did not. */
  lemma StripOnlyDeletes(s: string)
    ensures |StripCitations(s)| <= |s|
    ensures multiset(StripCitations(s)) <= multiset(s)
  {
    var ms := Matches(Citation, s);
    forall m | 0 <= m < |s| && ms[m].Some?
      ensures ms[m].value.replacement == ""
    {
    }
    DeletingScan(ms, s, 0);
    assert s[0..] == s;
  }

  /** The two examples: a marker with and without its trailing field. */
  lemma StripExamples()
    ensures StripCitations("a【3:7†Manual A†lines】b") == "ab"
    ensures StripCitations("a【3:7†Manual A】b") == "ab"
  {
    ExampleMarkers();
    StripRemovesMarker("a", "3", "7", "Manual A", Some("lines"), "b");
    StripRemovesMarker("a", "3", "7", "Manual A", None, "b");
    StripLeavesUnmarkedText("a");
    StripLeavesUnmarkedText("b");
    assert "a" + "b" == "ab";
  }

  lemma ExampleMarkers()
    ensures WellFormedMarker("3", "7", "Manual A", Some("lines"))
    ensures WellFormedMarker("3", "7", "Manual A", None)
    ensures "a" + Marker("3", "7", "Manual A", Some("lines")) + "b" == "a【3:7†Manual A†lines】b"
    ensures "a" + Marker("3", "7", "Manual A", None) + "b" == "a【3:7†Manual A】b"
  {
    ExampleWithNote();
    ExampleWithoutNote();
  }

  lemma ExampleWithNote()
    ensures WellFormedMarker("3", "7", "Manual A", Some("lines"))
    ensures "a" + Marker("3", "7", "Manual A", Some("lines")) + "b" == "a【3:7†Manual A†lines】b"
  {
  }

  lemma ExampleWithoutNote()
    ensures WellFormedMarker("3", "7", "Manual A", None)
    ensures "a" + Marker("3", "7", "Manual A", None) + "b" == "a【3:7†Manual A】b"
  {
  }

  /** An unterminated marker is left alone. */
  lemma StripKeepsOpenMarker()
    ensures StripCitations("【1:2†a") == "【1:2†a"
  {
    var s := "【1:2†a";
    assert Span(s, 5, NameChar) == 6 by { SpanExact(s, 5, 6, NameChar); }
    assert CitationAt(s, 0).None?;
    ReplaceIdle(Citation, s);
  }

  lemma StripInnerMarkerFirst()
    ensures StripCitations("【1:2†a【3:4†b】†c】") == "【1:2†a†c】"
  {
    InnerMarkerSplit();
    StripRemovesMarker("【1:2†a", "3", "4", "b", None, "†c】");
    StripKeepsOpenMarker();
    StripLeavesUnmarkedText("†c】");
    OuterMarkerJoin();
  }

  lemma InnerMarkerSplit()
    ensures WellFormedMarker("3", "4", "b", None)
    ensures "【1:2†a" + Marker("3", "4", "b", None) + "†c】" == "【1:2†a【3:4†b】†c】"
  {
  }

  lemma OuterMarkerJoin()
    ensures "【1:2†a" + "†c】" == "【1:2†a†c】"
  {
  }

  lemma StripOuterMarkerSecond()
    ensures StripCitations("【1:2†a†c】") == ""
  {
    OuterMarkerWhole();
    StripRemovesMarker("", "1", "2", "a", Some("c"), "");
    StripLeavesUnmarkedText("");
  }

  lemma OuterMarkerWhole()
    ensures WellFormedMarker("1", "2", "a", Some("c"))
    ensures "" + Marker("1", "2", "a", Some("c")) + "" == "【1:2†a†c】"
  {
  }

  /** stripCitations is not idempotent: removing an inner marker can leave an
      outer one well formed, and a second pass removes that too. */
  lemma StripNotIdempotent()
    ensures StripCitations("【1:2†a【3:4†b】†c】") == "【1:2†a†c】"
    ensures StripCitations(StripCitations("【1:2†a【3:4†b】†c】")) == ""
  {
    StripInnerMarkerFirst();
    StripOuterMarkerSecond();
  }

  // ---------------------------------------------------------------------------
  // repairInlineCitations

  /** The lazy group stops at the first closer: every position it passes has
      no closer and no line terminator. */
  lemma {:induction false} LazyIsFirst(c: Closer, s: string, p: nat)
    requires p <= |s| && LazyUntil(c, s, p).Some?
    ensures forall m :: p <= m < LazyUntil(c, s, p).value.at
                        ==> !IsLineTerminator(s[m]) && CloseAt(c, s, m).None?
    decreases |s| - p
  {
    if CloseAt(c, s, p).None? {
      LazyIsFirst(c, s, p + 1);
    }
  }

  /** Passing over text with no closer and no line terminator. */
  lemma {:induction false} LazyReaches(c: Closer, s: string, p: nat, q: nat)
    requires p <= q <= |s|
    requires forall m :: p <= m < q ==> !IsLineTerminator(s[m]) && CloseAt(c, s, m).None?
    ensures LazyUntil(c, s, p) == LazyUntil(c, s, q)
    decreases q - p
  {
    if p < q {
      LazyReaches(c, s, p + 1, q);
      LazyStep(c, s, p);
    }
  }

  lemma LazyStep(c: Closer, s: string, p: nat)
    requires p < |s| && !IsLineTerminator(s[p]) && CloseAt(c, s, p).None?
    ensures LazyUntil(c, s, p) == LazyUntil(c, s, p + 1)
  {
  }

  function Brackets(c: Closer): string {
    match c
    case DoubledBracket => "】】【"
    case SingleBracket => "】【"
    case Stars => "**"
  }

  function RuleOf(c: Closer): Pattern {
    match c
    case DoubledBracket => SourceDoubled
    case SingleBracket => SourceSingle
    case Stars => Bold
  }

  /** A textual source note: `[Source:`, white space, a name, the bracket text
      of `c`, then `segment:position]`. */
  function SourceNote(c: Closer, ws: string, name: string, segment: string, position: string): string {
    "[Source:" + ws + name + Brackets(c) + segment + ":" + position + "]"
  }

  /** What the repair rules capture as it stands: leading white space is
      eaten by the `\s*`, and the name stays on one line before any `】`. */
  predicate PlainSourceName(ws: string, name: string) {
    && AllSpace(ws)
    && (name == [] || !IsSpace(name[0]))
    && '】' !in name
    && forall m :: 0 <= m < |name| ==> !IsLineTerminator(name[m])
  }

  lemma IndexPairMatches(s: string, p: nat, q: nat, segment: string, position: string)
    requires p < q <= |s| && s[q..] == segment + ":" + position + "]"
    requires |segment| > 0 && AllIn(segment, Digit)
    requires |position| > 0 && AllIn(position, Digit)
    ensures IndexPair(s, p, q) == Some(Close(p, segment, position, |s|))
  {
    var a := q + |segment|;
    var b := a + 1 + |position|;
    assert s[q..] == segment + ([':'] + (position + "]"));
    RunThen(s, q, segment, ':', position + "]", a, Digit);
    RunThen(s, a + 1, position, ']', [], b, Digit);
  }

  /** The white space after `[Source:` is skipped up to the first character of the name. */
  lemma SourceSpacesPart(s: string, head: string, ws: string, rest: string)
    requires s == head + ws + rest && AllSpace(ws)
    requires rest == [] || !IsSpace(rest[0])
    ensures Span(s, |head|, Space) == |head| + |ws|
  {
    var k := |head| + |ws|;
    assert forall m :: |head| <= m < k ==> s[m] == ws[m - |head|];
    assert k < |s| ==> s[k] == rest[0];
    SpanExact(s, |head|, k, Space);
  }

  /** The lazy group runs over text holding neither the first character of
      its closer nor a line terminator. */
  lemma LazyOverText(c: Closer, s: string, k: nat, p: nat)
    requires k <= p <= |s|
    requires forall m :: k <= m < p ==> s[m] != Brackets(c)[0] && !IsLineTerminator(s[m])
    ensures LazyUntil(c, s, k) == LazyUntil(c, s, p)
  {
    forall m | k <= m < p
      ensures !IsLineTerminator(s[m]) && CloseAt(c, s, m).None?
    {
      NoBracketNoCloser(c, s, m);
    }
    LazyReaches(c, s, k, p);
  }

  /** The lazy name runs over a name with no `】` and no line terminator. */
  lemma SourceNameRun(c: Closer, s: string, k: nat, name: string)
    requires c != Stars && k + |name| <= |s| && s[k..k + |name|] == name
    requires '】' !in name && forall m :: 0 <= m < |name| ==> !IsLineTerminator(name[m])
    ensures LazyUntil(c, s, k) == LazyUntil(c, s, k + |name|)
  {
    assert forall m :: k <= m < k + |name| ==> s[m] == name[m - k];
    assert Brackets(c)[0] == '】';
    LazyOverText(c, s, k, k + |name|);
  }

  lemma MiddleSlice(s: string, head: string, name: string, rest: string)
    requires s == head + name + rest
    ensures s[|head|..|head| + |name|] == name
  {
  }

  lemma NoBracketNoCloser(c: Closer, s: string, m: nat)
    requires m < |s| && s[m] != Brackets(c)[0]
    ensures CloseAt(c, s, m).None?
  {
  }

  lemma DropPrefix(a: string, b: string)
    ensures (a + b)[|a|..] == b
  {
  }

  /** The bracket text of `c` and `segment:position]` at `p`, to the end of the text. */
  lemma BracketCloser(c: Closer, s: string, p: nat, segment: string, position: string)
    requires c != Stars && p <= |s| && s[p..] == Brackets(c) + segment + ":" + position + "]"
    requires |segment| > 0 && AllIn(segment, Digit)
    requires |position| > 0 && AllIn(position, Digit)
    ensures CloseAt(c, s, p) == Some(Close(p, segment, position, |s|))
  {
    var b := Brackets(c);
    var q := p + |b|;
    var u := s[p..];
    assert s[p] == u[0] == '】' && s[p + 1] == u[1] == b[1];
    assert c == DoubledBracket ==> s[p + 2] == u[2] == '【';
    assert s[q..] == segment + ":" + position + "]" by {
      assert s[q..] == u[|b|..];
      DropPrefix(b, segment + ":" + position + "]");
    }
    IndexPairMatches(s, p, q, segment, position);
  }

  /** The bracket rule for `c` matches the whole of its source note. */
  lemma SourceNoteMatches(c: Closer, ws: string, name: string, segment: string, position: string)
    requires c != Stars && PlainSourceName(ws, name)
    requires |segment| > 0 && AllIn(segment, Digit)
    requires |position| > 0 && AllIn(position, Digit)
    ensures SourceAt(c, SourceNote(c, ws, name, segment, position), 0)
            == Some(Hit(|SourceNote(c, ws, name, segment, position)|, CanonicalMarker(segment, position, name)))
  {
    var s := SourceNote(c, ws, name, segment, position);
    var k := 8 + |ws|;
    var p := k + |name|;
    var close := Close(p, segment, position, |s|);
    SourceNoteSpaces(c, ws, name, segment, position, k);
    SourceNoteName(c, ws, name, segment, position, k, p);
    SourceNoteCloser(c, ws, name, segment, position, p);
    SourceAtFromParts(c, s, k, p, name, close);
  }

  /** The note opens with `[Source:` and its white space ends at `k`. */
  lemma SourceNoteSpaces(c: Closer, ws: string, name: string, segment: string, position: string, k: nat)
    requires k == 8 + |ws| && PlainSourceName(ws, name)
    ensures var s := SourceNote(c, ws, name, segment, position);
      k <= |s| && s[0..8] == "[Source:" && Span(s, 8, Space) == k
  {
    var s := SourceNote(c, ws, name, segment, position);
    var tail := Brackets(c) + segment + ":" + position + "]";
    assert s == "[Source:" + ws + (name + tail);
    SourceSpacesPart(s, "[Source:", ws, name + tail);
  }

  /** The name stands between `k` and `p`. */
  lemma SourceNoteName(c: Closer, ws: string, name: string, segment: string, position: string, k: nat, p: nat)
    requires k == 8 + |ws| && p == k + |name|
    ensures var s := SourceNote(c, ws, name, segment, position);
      p <= |s| && s[k..p] == name
  {
    var s := SourceNote(c, ws, name, segment, position);
    var tail := Brackets(c) + segment + ":" + position + "]";
    assert s == ("[Source:" + ws) + name + tail;
    MiddleSlice(s, "[Source:" + ws, name, tail);
  }

  /** The lazy group, once past the name, closes at `p` and runs to the end. */
  lemma SourceNoteCloser(c: Closer, ws: string, name: string, segment: string, position: string, p: nat)
    requires c != Stars && p == 8 + |ws| + |name|
    requires |segment| > 0 && AllIn(segment, Digit)
    requires |position| > 0 && AllIn(position, Digit)
    ensures var s := SourceNote(c, ws, name, segment, position);
      p <= |s| && LazyUntil(c, s, p) == Some(Close(p, segment, position, |s|))
  {
    var s := SourceNote(c, ws, name, segment, position);
    var tail := Brackets(c) + segment + ":" + position + "]";
    assert s == ("[Source:" + ws + name) + tail;
    DropPrefix("[Source:" + ws + name, tail);
    BracketCloser(c, s, p, segment, position);
  }

  /** How `SourceAt` assembles its match from the run of white space and the lazy name. */
  lemma SourceAtFromParts(c: Closer, s: string, k: nat, p: nat, name: string, close: Close)
    requires c != Stars && 8 <= k && p == k + |name| <= |s| && s[0..8] == "[Source:"
    requires Span(s, 8, Space) == k
    requires s[k..p] == name
    requires '】' !in name && forall m :: 0 <= m < |name| ==> !IsLineTerminator(name[m])
    requires LazyUntil(c, s, p) == Some(close) && close.at == p
    ensures SourceAt(c, s, 0) == Some(Hit(close.end, CanonicalMarker(close.segment, close.position, name)))
  {
    SourceNameRun(c, s, k, name);
  }

  /** One bracket rule rewrites its own source note into the canonical marker. */
  lemma SourceRuleRewrites(c: Closer, ws: string, name: string, segment: string, position: string)
    requires c != Stars && PlainSourceName(ws, name)
    requires |segment| > 0 && AllIn(segment, Digit)
    requires |position| > 0 && AllIn(position, Digit)
    ensures ReplaceAll(RuleOf(c), SourceNote(c, ws, name, segment, position))
            == CanonicalMarker(segment, position, name)
  {
    var s := SourceNote(c, ws, name, segment, position);
    SourceNoteMatches(c, ws, name, segment, position);
    ReplaceAtHit(RuleOf(c), s, 0);
  }

  /** A text whose only `】` is followed by something other than `】` holds no
      doubled-bracket closer, and no single-bracket closer if nothing follows. */
  lemma OneClosingBracket(x: string, y: string)
    requires '】' !in x && '】' !in y
    ensures forall m :: 0 <= m <= |x + "】" + y| ==> CloseAt(DoubledBracket, x + "】" + y, m).None?
    ensures y == [] ==> forall m :: 0 <= m <= |x + "】"| ==> CloseAt(SingleBracket, x + "】", m).None?
  {
    var s := x + "】" + y;
    assert forall m :: 0 <= m < |s| && m != |x| ==> s[m] != '】' by {
      forall m | 0 <= m < |s| && m != |x| ensures s[m] != '】' {
        if m < |x| { assert s[m] == x[m]; } else { assert s[m] == y[m - |x| - 1]; }
      }
    }
  }

  lemma NotInClass(s: string, k: CharClass, c: char)
    requires AllIn(s, k) && !InClass(c, k)
    ensures c !in s
  {
    assert forall m :: 0 <= m < |s| ==> s[m] != c;
  }

  /** A bracket rule with no closer anywhere in the text changes nothing. */
  lemma SourceRuleIdle(c: Closer, s: string)
    requires c != Stars
    requires forall m :: 0 <= m <= |s| ==> CloseAt(c, s, m).None?
    ensures ReplaceAll(RuleOf(c), s) == s
  {
    forall m | 0 <= m < |s| ensures MatchAt(RuleOf(c), s, m).None? {
      if SourceOpensAt(s, m) {
        LazyNone(c, s, Span(s, m + 8, Space));
      }
    }
    ReplaceIdle(RuleOf(c), s);
  }

  /** With no closer from `p` on, the lazy group never finds one. */
  lemma {:induction false} LazyNone(c: Closer, s: string, p: nat)
    requires p <= |s|
    requires forall m :: p <= m <= |s| ==> CloseAt(c, s, m).None?
    ensures LazyUntil(c, s, p).None?
    decreases |s| - p
  {
    if p < |s| && !IsLineTerminator(s[p]) {
      LazyNone(c, s, p + 1);
    }
  }

  lemma NoBracketInCanonical(segment: string, position: string, name: string)
    requires AllIn(segment, Digit) && AllIn(position, Digit)
    requires '】' !in name
    ensures CanonicalMarker(segment, position, name) == ("【" + segment + ":" + position + "†" + name + "†lines") + "】"
    ensures '】' !in "【" + segment + ":" + position + "†" + name + "†lines"
  {
    NotInClass(segment, Digit, '】');
    NotInClass(position, Digit, '】');
  }

  /** repairInlineCitations turns both the doubled-bracket and the
      single-bracket source note into the canonical marker. */
  lemma RepairRewritesSourceNote(doubled: bool, ws: string, name: string, segment: string, position: string)
    requires PlainSourceName(ws, name)
    requires |segment| > 0 && AllIn(segment, Digit)
    requires |position| > 0 && AllIn(position, Digit)
    ensures RepairInlineCitations(SourceNote(if doubled then DoubledBracket else SingleBracket, ws, name, segment, position))
            == CanonicalMarker(segment, position, name)
  {
    var marker := CanonicalMarker(segment, position, name);
    NoBracketInCanonical(segment, position, name);
    OneClosingBracket("【" + segment + ":" + position + "†" + name + "†lines", "");
    assert ("【" + segment + ":" + position + "†" + name + "†lines") + "】" + "" == marker;
    if doubled {
      SourceRuleRewrites(DoubledBracket, ws, name, segment, position);
      SourceRuleIdle(SingleBracket, marker);
    } else {
      var note := SourceNote(SingleBracket, ws, name, segment, position);
      var x := "[Source:" + ws + name;
      var y := "【" + segment + ":" + position + "]";
      assert note == x + "】" + y;
      assert AllIn(ws, Space);
      NotInClass(ws, Space, '】');
      NotInClass(segment, Digit, '】');
      NotInClass(position, Digit, '】');
      OneClosingBracket(x, y);
      SourceRuleIdle(DoubledBracket, note);
      SourceRuleRewrites(SingleBracket, ws, name, segment, position);
    }
  }

  /** The two examples, with the rule for the doubled bracket applied first. */
  lemma RepairExamples()
    ensures RepairInlineCitations("[Source: Manual A】】【3:7]") == "【3:7†Manual A†lines】"
    ensures RepairInlineCitations("[Source: Manual A】【3:7]") == "【3:7†Manual A†lines】"
  {
    assert PlainSourceName(" ", "Manual A");
    assert AllIn("3", Digit) && AllIn("7", Digit);
    assert SourceNote(DoubledBracket, " ", "Manual A", "3", "7") == "[Source: Manual A】】【3:7]";
    assert SourceNote(SingleBracket, " ", "Manual A", "3", "7") == "[Source: Manual A】【3:7]";
    assert CanonicalMarker("3", "7", "Manual A") == "【3:7†Manual A†lines】";
    RepairRewritesSourceNote(true, " ", "Manual A", "3", "7");
    RepairRewritesSourceNote(false, " ", "Manual A", "3", "7");
  }

  /** Text that contains no `[Source:` is left unchanged by both repair rules. */
  lemma RepairLeavesPlainText(s: string)
    requires forall i :: 0 <= i <= |s| ==> !SourceOpensAt(s, i)
    ensures RepairInlineCitations(s) == s
  {
    ReplaceIdle(SourceDoubled, s);
    ReplaceIdle(SourceSingle, s);
  }

  /** Text without `[` holds no `[Source:`. */
  lemma NoBracketNoSource(s: string)
    requires '[' !in s
    ensures forall i :: 0 <= i <= |s| ==> !SourceOpensAt(s, i)
  {
    forall i | 0 <= i <= |s| ensures !SourceOpensAt(s, i) {
      assert i + 8 <= |s| ==> s[i..i + 8][0] == s[i];
    }
  }
}
