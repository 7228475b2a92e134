/**
 * The string operations the frontend and the Python services rely on, over `seq<char>`.
 * Whitespace is the set JavaScript's `trim` and `\s` strip; case mapping touches ASCII letters
 * only.
 */
module Strings {

  /** JavaScript's WhiteSpace and LineTerminator characters (section 12.2 and 12.3 of ECMA-262):
      tab, vertical tab, form feed, no-break space, the byte order mark, the space separators
      (category Zs), line feed, carriage return and the line and paragraph separators. */
  predicate IsSpace(c: char) {
    || c == ' ' || c == '\t' || c == '\n' || c == '\r' || c == '\U{000B}' || c == '\U{000C}'
    || c == '\U{00A0}' || c == '\U{FEFF}' || c == '\U{1680}' || ('\U{2000}' <= c <= '\U{200A}')
    || c == '\U{2028}' || c == '\U{2029}' || c == '\U{202F}' || c == '\U{205F}' || c == '\U{3000}'
  }

  predicate IsDigit(c: char) { '0' <= c <= '9' }

  /** Python's `str.isdigit` on ASCII text: non-empty and all decimal digits. */
  predicate IsAllDigits(s: string) {
    |s| > 0 && forall k :: 0 <= k < |s| ==> IsDigit(s[k])
  }

  predicate StartsWith(s: string, prefix: string) {
    |prefix| <= |s| && s[..|prefix|] == prefix
  }

  /** JavaScript's `s.includes(t)`: `t` occurs as a contiguous piece of `s`. */
  predicate Includes(s: string, t: string) {
    exists i :: 0 <= i <= |s| - |t| && PieceAt(s, t, i)
  }

  /** `t` stands in `s` from index `i` on. */
  predicate PieceAt(s: string, t: string, i: int) {
    0 <= i <= |s| - |t| && s[i..i + |t|] == t
  }

  function Lower(c: char): char {
    if 'A' <= c <= 'Z' then (c as int + 32) as char else c
  }

  function Upper(c: char): char {
    if 'a' <= c <= 'z' then (c as int - 32) as char else c
  }

  function ToLower(s: string): (r: string)
    ensures |r| == |s| && forall k :: 0 <= k < |s| ==> r[k] == Lower(s[k])
  {
    seq(|s|, k requires 0 <= k < |s| => Lower(s[k]))
  }

  function ToUpper(s: string): (r: string)
    ensures |r| == |s| && forall k :: 0 <= k < |s| ==> r[k] == Upper(s[k])
  {
    seq(|s|, k requires 0 <= k < |s| => Upper(s[k]))
  }

  /** Number of whitespace characters at the start of `s`. */
  function LeadingSpaces(s: string): (n: nat)
    ensures n <= |s|
    ensures forall k :: 0 <= k < n ==> IsSpace(s[k])
    ensures n < |s| ==> !IsSpace(s[n])
  {
    if |s| == 0 || !IsSpace(s[0]) then 0 else 1 + LeadingSpaces(s[1..])
  }

  /** Number of whitespace characters at the end of `s`. */
  function TrailingSpaces(s: string): (n: nat)
    ensures n <= |s|
    ensures forall k :: |s| - n <= k < |s| ==> IsSpace(s[k])
    ensures n < |s| ==> !IsSpace(s[|s| - n - 1])
  {
    if |s| == 0 || !IsSpace(s[|s| - 1]) then 0 else 1 + TrailingSpaces(s[..|s| - 1])
  }

  /** Number of non-whitespace characters at the start of `s`. */
  function LeadingWord(s: string): (n: nat)
    ensures n <= |s|
    ensures forall k :: 0 <= k < n ==> !IsSpace(s[k])
    ensures n < |s| ==> IsSpace(s[n])
  {
    if |s| == 0 || IsSpace(s[0]) then 0 else 1 + LeadingWord(s[1..])
  }

  predicate Trimmed(s: string) {
    s == [] || (!IsSpace(s[0]) && !IsSpace(s[|s| - 1]))
  }

  /** JavaScript's `String.prototype.trim`. */
  function Trim(s: string): (r: string)
    ensures Trimmed(r)
    ensures r == [] <==> forall k :: 0 <= k < |s| ==> IsSpace(s[k])
    ensures Includes(s, r)
    ensures Trimmed(s) ==> r == s
  {
    var a := LeadingSpaces(s);
    var t := s[a..];
    var b := TrailingSpaces(t);
    var r := t[..|t| - b];
    assert PieceAt(s, r, a);
    r
  }

  /** JavaScript's `s.split(/\s+/)`: the pieces between maximal runs of whitespace. */
  function SplitWs(s: string): (parts: seq<string>)
    ensures |parts| >= 1
    decreases |s|
  {
    var n := LeadingWord(s);
    if n == |s| then [s]
    else
      var rest := s[n..];
      var m := LeadingSpaces(rest);
      [s[..n]] + SplitWs(rest[m..])
  }

  /** On trimmed non-empty text every piece of the split is a non-empty word without whitespace. */
  lemma {:induction false} SplitTrimmedWords(s: string)
    requires Trimmed(s) && s != []
    ensures forall p :: p in SplitWs(s) ==> p != [] && forall k :: 0 <= k < |p| ==> !IsSpace(p[k])
    decreases |s|
  {
    var n := LeadingWord(s);
    if n < |s| {
      var rest := s[n..];
      var m := LeadingSpaces(rest);
      assert rest[|rest| - 1] == s[|s| - 1];
      var tail := rest[m..];
      assert tail != [] && tail[|tail| - 1] == s[|s| - 1];
      SplitTrimmedWords(tail);
      assert SplitWs(s) == [s[..n]] + SplitWs(tail);
    }
  }

  /** A non-empty piece of text without whitespace. */
  predicate Word(w: string) {
    w != [] && forall k :: 0 <= k < |w| ==> !IsSpace(w[k])
  }

  /** A single word is not split. */
  lemma SplitWsWord(w: string)
    requires Word(w)
    ensures SplitWs(w) == [w]
  {
    assert LeadingWord(w) == |w|;
  }

  /** A word followed by whitespace: the leading word is exactly that word. */
  lemma {:induction false} LeadingWordOfWord(w: string, t: string)
    requires Word(w) && t != [] && IsSpace(t[0])
    ensures LeadingWord(w + t) == |w|
  {
    assert forall k :: 0 <= k < |w| ==> (w + t)[k] == w[k];
    assert (w + t)[|w|] == t[0];
  }

  /** A word, one space, then text that opens with a non-space: the word is the first piece. */
  lemma SplitWsCons(w: string, rest: string, tail: seq<string>)
    requires Word(w) && rest != [] && !IsSpace(rest[0])
    requires SplitWs(rest) == tail
    ensures SplitWs(w + " " + rest) == [w] + tail
  {
    var s := w + " " + rest;
    assert s == w + (" " + rest);
    LeadingWordOfWord(w, " " + rest);
    var r := s[|w|..];
    assert r == " " + rest;
    assert LeadingSpaces(r) == 1;
    assert r[1..] == rest;
    assert s[..|w|] == w;
  }

  /** Words joined by single spaces. */
  function Spaced(ws: seq<string>): string
    decreases |ws|
  {
    if |ws| == 0 then "" else if |ws| == 1 then ws[0] else ws[0] + " " + Spaced(ws[1..])
  }

  /** Words joined by spaces neither open nor close with whitespace. */
  lemma {:induction false} SpacedEnds(ws: seq<string>)
    requires |ws| > 0
    requires forall k :: 0 <= k < |ws| ==> Word(ws[k])
    ensures Spaced(ws) != [] && !IsSpace(Spaced(ws)[0]) && !IsSpace(Spaced(ws)[|Spaced(ws)| - 1])
    decreases |ws|
  {
    if |ws| > 1 {
      SpacedEnds(ws[1..]);
      var rest := Spaced(ws[1..]);
      var s := ws[0] + " " + rest;
      assert s[0] == ws[0][0] && s[|s| - 1] == rest[|rest| - 1];
    }
  }

  /** Every piece is a word. */
  predicate Words(ws: seq<string>) {
    forall k :: 0 <= k < |ws| ==> Word(ws[k])
  }

  lemma WordsCons(w: string, ws: seq<string>)
    requires Word(w) && Words(ws)
    ensures Words([w] + ws)
  {
    forall k | 0 <= k < |[w] + ws|
      ensures Word(([w] + ws)[k])
    {
      if k > 0 {
        assert ([w] + ws)[k] == ws[k - 1];
      }
    }
  }

  lemma WordsSnoc(ws: seq<string>, w: string)
    requires Words(ws) && Word(w)
    ensures Words(ws + [w])
  {
    forall k | 0 <= k < |ws + [w]|
      ensures Word((ws + [w])[k])
    {
      if k < |ws| {
        assert (ws + [w])[k] == ws[k];
      }
    }
  }

  /** Joining a word in front of more words puts one space after it. */
  lemma SpacedCons(w: string, ws: seq<string>)
    requires |ws| > 0
    ensures Spaced([w] + ws) == w + " " + Spaced(ws)
  {
    assert ([w] + ws)[1..] == ws;
  }

  /** Splitting words joined by single spaces gives the words back. */
  lemma {:induction false} SpacedSplit(ws: seq<string>)
    requires |ws| > 0
    requires forall k :: 0 <= k < |ws| ==> Word(ws[k])
    ensures SplitWs(Spaced(ws)) == ws
    decreases |ws|
  {
    if |ws| == 1 {
      SplitWsWord(ws[0]);
    } else {
      var rest := Spaced(ws[1..]);
      SpacedEnds(ws[1..]);
      SpacedSplit(ws[1..]);
      SplitWsCons(ws[0], rest, ws[1..]);
      assert Spaced(ws) == ws[0] + " " + rest;
      assert ws == [ws[0]] + ws[1..];
    }
  }

  /** JavaScript's `s.split(sep)` for a one-character separator. */
  function SplitOn(s: string, sep: char): (parts: seq<string>)
    ensures |parts| >= 1
    decreases |s|
  {
    if |s| == 0 then [""]
    else if s[0] == sep then [""] + SplitOn(s[1..], sep)
    else
      var tail := SplitOn(s[1..], sep);
      [[s[0]] + tail[0]] + tail[1..]
  }

  /** Splitting `a + [sep] + b` where `a` has no separator yields `a` first, then the pieces of `b`. */
  lemma {:induction false} SplitOnJoin(a: string, sep: char, b: string)
    requires forall k :: 0 <= k < |a| ==> a[k] != sep
    ensures SplitOn(a + [sep] + b, sep) == [a] + SplitOn(b, sep)
    decreases |a|
  {
    if |a| == 0 {
      assert a + [sep] + b == [sep] + b;
      assert ([sep] + b)[1..] == b;
    } else {
      var s := a + [sep] + b;
      assert s[0] == a[0] && s[1..] == a[1..] + [sep] + b;
      SplitOnJoin(a[1..], sep, b);
      assert [a[0]] + a[1..] == a;
    }
  }

  /** A string without the separator is not split at all. */
  lemma {:induction false} SplitOnNone(a: string, sep: char)
    requires forall k :: 0 <= k < |a| ==> a[k] != sep
    ensures SplitOn(a, sep) == [a]
    decreases |a|
  {
    if |a| > 0 {
      SplitOnNone(a[1..], sep);
      assert [a[0]] + a[1..] == a;
    }
  }
}
