/**
 * The read-only view of a text buffer that the key-binding handlers consult:
 * a text with a cursor offset, and the line-oriented accessors they call on it
 * (current line, text before the cursor on that line, cursor row, line count,
 * start-of-line offset after leading whitespace).  These accessors belong to
 * the prompt_toolkit library; the definitions here are the behaviour this
 * model assumes of them.
 */
module Documents {

  /** The characters Python's `str.isspace` accepts. */
  const Whitespace: set<char> := {
    ' ', '\t', '\n', '\U{0B}', '\U{0C}', '\r', '\U{1C}', '\U{1D}', '\U{1E}', '\U{1F}',
    '\U{85}', '\U{A0}', '\U{1680}',
    '\U{2000}', '\U{2001}', '\U{2002}', '\U{2003}', '\U{2004}', '\U{2005}',
    '\U{2006}', '\U{2007}', '\U{2008}', '\U{2009}', '\U{200A}',
    '\U{2028}', '\U{2029}', '\U{202F}', '\U{205F}', '\U{3000}' }

  /** Python's `str.isspace` for a single character. */
  predicate IsSpace(c: char) {
    c in Whitespace
  }

  predicate AllSpace(s: string) {
    forall k :: 0 <= k < |s| ==> IsSpace(s[k])
  }

  datatype DocumentValue = Doc(text: string, cursor: nat)

  /** A document never has its cursor past the end of its text. */
  type Document = d: DocumentValue | d.cursor <= |d.text| witness Doc("", 0)

  function CountNewlines(s: string): (n: nat)
    ensures n <= |s|
    ensures n == 0 <==> '\n' !in s
  {
    if s == [] then 0
    else (if s[0] == '\n' then 1 else 0) + CountNewlines(s[1..])
  }

  lemma {:induction false} CountNewlinesAppend(a: string, b: string)
    ensures CountNewlines(a + b) == CountNewlines(a) + CountNewlines(b)
  {
    if a == [] {
      assert a + b == b;
    } else {
      assert (a + b)[1..] == a[1..] + b;
      CountNewlinesAppend(a[1..], b);
    }
  }

  /** The row of the cursor: the number of line breaks before it. */
  function CursorRow(d: Document): (row: nat)
    ensures row <= d.cursor
    ensures row == 0 <==> '\n' !in d.text[..d.cursor]
  {
    CountNewlines(d.text[..d.cursor])
  }

  /** The number of lines: one more than the number of line breaks. */
  function LineCount(d: Document): (n: nat)
    ensures 1 <= n <= |d.text| + 1
    ensures n == 1 <==> '\n' !in d.text
  {
    CountNewlines(d.text) + 1
  }

  /** The cursor always sits on one of the document's lines. */
  lemma CursorRowBelowLineCount(d: Document)
    ensures CursorRow(d) < LineCount(d)
  {
    assert d.text == d.text[..d.cursor] + d.text[d.cursor..];
    CountNewlinesAppend(d.text[..d.cursor], d.text[d.cursor..]);
  }

  /** The offset where the line holding position `i` starts. */
  function LineStartBefore(t: string, i: nat): (r: nat)
    requires i <= |t|
    ensures r <= i
    ensures r == 0 || t[r - 1] == '\n'
    ensures forall k :: r <= k < i ==> t[k] != '\n'
    decreases i
  {
    if i == 0 || t[i - 1] == '\n' then i else LineStartBefore(t, i - 1)
  }

  /** The offset where the line holding position `i` ends (its line break, or the end of the text). */
  function LineEndFrom(t: string, i: nat): (r: nat)
    requires i <= |t|
    ensures i <= r <= |t|
    ensures r == |t| || t[r] == '\n'
    ensures forall k :: i <= k < r ==> t[k] != '\n'
    decreases |t| - i
  {
    if i == |t| || t[i] == '\n' then i else LineEndFrom(t, i + 1)
  }

  /** The offset where the cursor's line starts. */
  function LineStart(d: Document): nat
    ensures LineStart(d) <= d.cursor
  {
    LineStartBefore(d.text, d.cursor)
  }

  /** The offset where the cursor's line ends. */
  function LineEnd(d: Document): nat
    ensures d.cursor <= LineEnd(d) <= |d.text|
  {
    LineEndFrom(d.text, d.cursor)
  }

  /** `current_line_before_cursor`: the longest break-free suffix of the text before the cursor. */
  function CurrentLineBeforeCursor(d: Document): (r: string)
    ensures |r| <= d.cursor && r == d.text[d.cursor - |r|..d.cursor]
    ensures '\n' !in r
    ensures |r| == d.cursor || d.text[d.cursor - |r| - 1] == '\n'
  {
    d.text[LineStart(d)..d.cursor]
  }

  /** `current_line`: the whole line under the cursor, without its line break. */
  function CurrentLine(d: Document): (r: string)
    ensures '\n' !in r
    ensures CurrentLineBeforeCursor(d) <= r
    ensures var s := LineStart(d);
      && s + |r| <= |d.text|
      && r == d.text[s..s + |r|]
      && (s + |r| == |d.text| || d.text[s + |r|] == '\n')
  {
    d.text[LineStart(d)..LineEnd(d)]
  }

  /** `cursor_position_col`. */
  function CursorColumn(d: Document): nat {
    d.cursor - LineStart(d)
  }

  /** The length of the run of whitespace that starts `s` (what `lstrip` removes). */
  function LeadingWhitespace(s: string): (n: nat)
    ensures n <= |s|
    ensures AllSpace(s[..n])
    ensures n == |s| || !IsSpace(s[n])
  {
    if s == [] || !IsSpace(s[0]) then 0 else 1 + LeadingWhitespace(s[1..])
  }

  /** The offset of the first non-whitespace character of the current line (its end if it is blank). */
  function FirstNonBlank(d: Document): (p: nat)
    ensures LineStart(d) <= p <= LineEnd(d)
    ensures AllSpace(d.text[LineStart(d)..p])
    ensures p == LineEnd(d) || !IsSpace(d.text[p])
  {
    var s, line := LineStart(d), CurrentLine(d);
    var n := LeadingWhitespace(line);
    assert line[..n] == d.text[s..s + n];
    assert n < |line| ==> line[n] == d.text[s + n];
    s + n
  }

  /**
   * `get_start_of_line_position(after_whitespace=True)`: the signed distance from
   * the cursor to the first non-whitespace column of its line; positive when the
   * cursor is inside the leading whitespace.
   */
  function StartOfLinePositionAfterWhitespace(d: Document): (pos: int)
    ensures d.cursor + pos == FirstNonBlank(d)
  {
    LeadingWhitespace(CurrentLine(d)) - CursorColumn(d)
  }

  /** The text with `s` inserted at offset `p`. */
  function InsertAt(t: string, p: nat, s: string): (r: string)
    requires p <= |t|
    ensures |r| == |t| + |s|
    ensures r[..p] == t[..p] && r[p..p + |s|] == s && r[p + |s|..] == t[p..]
  {
    t[..p] + s + t[p..]
  }

  /** Text after the insertion point is shifted right by the inserted length and otherwise unchanged. */
  lemma InsertAtSuffix(t: string, p: nat, s: string, c: nat)
    requires p <= c <= |t|
    ensures InsertAt(t, p, s)[c + |s|..] == t[c..]
  {
    var r := InsertAt(t, p, s);
    assert r[p + |s|..] == t[p..];
    assert r[c + |s|..] == r[p + |s|..][c - p..];
    assert t[c..] == t[p..][c - p..];
  }

  /** The text with the `n` characters starting at offset `p` removed. */
  function RemoveAt(t: string, p: nat, n: nat): (r: string)
    requires p + n <= |t|
    ensures |r| == |t| - n
  {
    t[..p] + t[p + n..]
  }

  /**
   * Inserting `s` at `p` puts `s` there, can be undone by removing it, and
   * shifts an offset `c` at or after `p` right by `|s|` without changing the
   * text that follows it.
   */
  lemma InsertShifts(t: string, p: nat, s: string, c: nat)
    requires p <= |t| && c <= |t|
    ensures var r := InsertAt(t, p, s);
      && r[p..p + |s|] == s
      && RemoveAt(r, p, |s|) == t
      && (c >= p ==> r[c + |s|..] == t[c..])
  {
    RemoveInserted(t, p, s);
    if c >= p {
      InsertAtSuffix(t, p, s, c);
    }
  }

  /** Removing what was inserted gives back the original text. */
  lemma RemoveInserted(t: string, p: nat, s: string)
    requires p <= |t|
    ensures RemoveAt(InsertAt(t, p, s), p, |s|) == t
  {
    var r := InsertAt(t, p, s);
    assert r[..p] + r[p + |s|..] == t[..p] + t[p..];
  }
}
