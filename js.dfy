/** What the widget and the two handlers rely on from the JavaScript runtime:
    optional values and their truthiness, the character classes used by the
    regular expressions of the reply pipeline, and String.prototype.trim. */
module Js {

  /** A value that may be absent: `undefined`/`null` are `None`. */
  datatype Option<T> = None | Some(value: T)

  /** A string-valued field is truthy when it is present and not empty. */
  predicate Truthy(v: Option<string>) {
    v.Some? && v.value != ""
  }

  /** LineTerminator: LF, CR, LINE SEPARATOR, PARAGRAPH SEPARATOR. These are the
      characters `.` does not match and after which `^` matches in multiline mode. */
  predicate IsLineTerminator(c: char) {
    c == '\n' || c == '\r' || c == '\U{2028}' || c == '\U{2029}'
  }

  /** The class `\s`, which is also the set `trim` removes: WhiteSpace (tab,
      vertical tab, form feed, space, no-break space, byte order mark and the
      other space separators) together with the line terminators. */
  predicate IsSpace(c: char) {
    || c == '\t' || c == '\U{000B}' || c == '\U{000C}' || c == ' '
    || c == '\U{00A0}' || c == '\U{FEFF}' || c == '\U{1680}'
    || ('\U{2000}' <= c <= '\U{200A}')
    || c == '\U{202F}' || c == '\U{205F}' || c == '\U{3000}'
    || IsLineTerminator(c)
  }

  /** The class `\d`. */
  predicate IsDigit(c: char) {
    '0' <= c <= '9'
  }

  predicate AllSpace(s: string) {
    forall j :: 0 <= j < |s| ==> IsSpace(s[j])
  }

  /** Index of the first character at or after `i` that is not white space. */
  function SkipSpaces(s: string, i: nat): (k: nat)
    requires i <= |s|
    ensures i <= k <= |s|
    ensures forall j :: i <= j < k ==> IsSpace(s[j])
    ensures k < |s| ==> !IsSpace(s[k])
    decreases |s| - i
  {
    if i < |s| && IsSpace(s[i]) then SkipSpaces(s, i + 1) else i
  }

  /** End of `s[..j]` once its trailing white space is dropped, never going below `lo`. */
  function DropTrailingSpaces(s: string, lo: nat, j: nat): (k: nat)
    requires lo <= j <= |s|
    ensures lo <= k <= j
    ensures forall m :: k <= m < j ==> IsSpace(s[m])
    ensures k > lo ==> !IsSpace(s[k - 1])
    decreases j
  {
    if j > lo && IsSpace(s[j - 1]) then DropTrailingSpaces(s, lo, j - 1) else j
  }

  /** String.prototype.trim: the text between the leading and the trailing white space. */
  function Trim(s: string): (r: string)
    ensures |r| <= |s|
    ensures r == [] || (!IsSpace(r[0]) && !IsSpace(r[|r| - 1]))
    ensures r == [] <==> AllSpace(s)
  {
    var a := SkipSpaces(s, 0);
    var b := DropTrailingSpaces(s, a, |s|);
    TrimEmpty(s, a, b);
    s[a..b]
  }

  /** Trimming removes white space at both ends and nothing else. */
  lemma TrimKeepsMiddle(s: string)
    ensures var r := Trim(s);
      exists a :: 0 <= a <= |s| - |r| && s == s[..a] + r + s[a + |r|..]
                  && AllSpace(s[..a]) && AllSpace(s[a + |r|..])
  {
    var a := SkipSpaces(s, 0);
    TrimSplits(s, a, DropTrailingSpaces(s, a, |s|));
  }

  lemma TrimEmpty(s: string, a: nat, b: nat)
    requires a == SkipSpaces(s, 0) && b == DropTrailingSpaces(s, a, |s|)
    ensures var r := s[a..b];
      && (r == [] <==> AllSpace(s))
      && (r == [] || (!IsSpace(r[0]) && !IsSpace(r[|r| - 1])))
  {
  }

  lemma TrimSplits(s: string, a: nat, b: nat)
    requires a == SkipSpaces(s, 0) && b == DropTrailingSpaces(s, a, |s|)
    ensures var r := s[a..b];
      0 <= a <= |s| - |r| && s == s[..a] + r + s[a + |r|..] && AllSpace(s[..a]) && AllSpace(s[a + |r|..])
  {
    var r := s[a..b];
    assert AllSpace(s[..a]) by {
      forall j | 0 <= j < a ensures IsSpace(s[..a][j]) {
        assert s[..a][j] == s[j];
      }
    }
    assert AllSpace(s[a + |r|..]) by {
      forall j | 0 <= j < |s| - b ensures IsSpace(s[b..][j]) {
        assert s[b..][j] == s[b + j];
      }
    }
    assert s == s[..a] + r + s[a + |r|..] by {
      assert a + |r| == b;
    }
  }
}
