/**
 * The three pieces of Python string handling the matrix parser relies on:
 * `str.strip()`, `str.split("\n")` and `str.split()` (no argument), over
 * strings as sequences of Unicode scalar values.
 */
module PyText {

  /** The characters Python's `str.isspace()` accepts; `strip()` and
      `split()` without arguments treat exactly these as whitespace. */
  predicate IsSpace(c: char) {
    c == ' ' || ('\t' <= c <= '\r') || ('\U{1C}' <= c <= '\U{1F}')
    || c == '\U{85}' || c == '\U{A0}' || c == '\U{1680}'
    || ('\U{2000}' <= c <= '\U{200A}') || c == '\U{2028}' || c == '\U{2029}'
    || c == '\U{202F}' || c == '\U{205F}' || c == '\U{3000}'
  }

  /** Among ASCII characters, the whitespace is the six C whitespace
      characters and the four separators U+001C..U+001F; in particular no
      printable ASCII character (digits, signs, `.`, letters) is a space. */
  lemma AsciiSpaces(c: char)
    requires c < '\U{80}'
    ensures IsSpace(c) <==> c in {' ', '\t', '\n', '\U{0B}', '\U{0C}', '\r', '\U{1C}', '\U{1D}', '\U{1E}', '\U{1F}'}
    ensures '!' <= c <= '~' ==> !IsSpace(c)
  {
  }

  predicate AllSpace(s: string) {
    forall i :: 0 <= i < |s| ==> IsSpace(s[i])
  }

  predicate NoSpace(s: string) {
    forall i :: 0 <= i < |s| ==> !IsSpace(s[i])
  }

  /** Drops the leading whitespace: what remains is a suffix of `s` that is
      empty or starts with a non-space, and everything dropped is space. */
  function TrimLeft(s: string): (r: string)
    ensures |r| <= |s| && r == s[|s| - |r|..]
    ensures AllSpace(s[..|s| - |r|])
    ensures r == [] || !IsSpace(r[0])
  {
    if s != [] && IsSpace(s[0]) then
      var r := TrimLeft(s[1..]);
      assert s[..|s| - |r|] == [s[0]] + s[1..][..|s| - 1 - |r|];
      r
    else s
  }

  /** Drops the trailing whitespace, symmetrically to TrimLeft. */
  function TrimRight(s: string): (r: string)
    ensures |r| <= |s| && r == s[..|r|]
    ensures AllSpace(s[|r|..])
    ensures r == [] || !IsSpace(r[|r| - 1])
  {
    if s != [] && IsSpace(s[|s| - 1]) then
      var r := TrimRight(s[..|s| - 1]);
      assert s[|r|..] == s[..|s| - 1][|r|..] + [s[|s| - 1]];
      r
    else s
  }

  /** `str.strip()`: what is left once the whitespace margins on both sides
      are cut off, which is empty or starts and ends with a non-space. */
  function Strip(s: string): (r: string)
    ensures r == [] || (!IsSpace(r[0]) && !IsSpace(r[|r| - 1]))
  {
    TrimRight(TrimLeft(s))
  }

  /** `s` is the stripped text with an all-space margin on either side. */
  lemma StripMargins(s: string) returns (i: nat)
    ensures i + |Strip(s)| <= |s|
    ensures Strip(s) == s[i..i + |Strip(s)|]
    ensures AllSpace(s[..i]) && AllSpace(s[i + |Strip(s)|..])
  {
    var t := TrimLeft(s);
    var r := TrimRight(t);
    i := |s| - |t|;
    assert t == s[i..] && AllSpace(s[..i]);
    assert r == t[..|r|] && AllSpace(t[|r|..]);
    SliceOfSuffix(s, i, |r|);
    assert r == s[i..i + |r|];
    assert t[|r|..] == s[i + |r|..];
  }

  lemma SliceOfSuffix(s: string, i: nat, n: nat)
    requires i + n <= |s|
    ensures s[i..][..n] == s[i..i + n] && s[i..][n..] == s[i + n..]
  {
  }

  /** `str.strip()` empties a string exactly when it is all whitespace. */
  lemma StripEmptyIffAllSpace(s: string)
    ensures Strip(s) == [] <==> AllSpace(s)
  {
    var i := StripMargins(s);
    if Strip(s) == [] {
      assert s == s[..i] + s[i..];
    }
  }

  /** A string without whitespace margins is left alone by `strip()`. */
  lemma StripNoMargins(s: string)
    requires s != [] && !IsSpace(s[0]) && !IsSpace(s[|s| - 1])
    ensures Strip(s) == s
  {
  }

  /** `str.split(sep)` with an explicit one-character separator: the pieces
      between consecutive occurrences of `sep`, empty pieces included. */
  function Split(s: string, sep: char): (parts: seq<string>)
    ensures |parts| >= 1
    ensures forall k :: 0 <= k < |parts| ==> sep !in parts[k]
  {
    if s == [] then [[]]
    else
      var rest := Split(s[1..], sep);
      if s[0] == sep then [[]] + rest
      else [[s[0]] + rest[0]] + rest[1..]
  }

  /** `sep.join(parts)`. */
  function Join(parts: seq<string>, sep: char): string
  {
    if parts == [] then []
    else if |parts| == 1 then parts[0]
    else parts[0] + [sep] + Join(parts[1..], sep)
  }

  /** Splitting and joining again gives back the text. */
  lemma {:induction false} JoinSplit(s: string, sep: char)
    ensures Join(Split(s, sep), sep) == s
  {
    if s != [] {
      JoinSplit(s[1..], sep);
      var rest := Split(s[1..], sep);
      if s[0] != sep && |rest| > 1 {
        assert Join(rest, sep) == rest[0] + [sep] + Join(rest[1..], sep);
      }
    }
  }

  /** There is one piece more than there are separators. */
  lemma {:induction false} SplitCount(s: string, sep: char)
    ensures |Split(s, sep)| == 1 + multiset(s)[sep]
  {
    if s != [] {
      SplitCount(s[1..], sep);
      assert s == [s[0]] + s[1..];
      assert multiset(s) == multiset([s[0]]) + multiset(s[1..]);
    }
  }

  lemma {:induction false} SplitPrefix(w: string, t: string, sep: char)
    requires sep !in w
    ensures Split(w + t, sep) == [w + Split(t, sep)[0]] + Split(t, sep)[1..]
  {
    if w != [] {
      SplitPrefix(w[1..], t, sep);
      assert (w + t)[1..] == w[1..] + t;
      assert [w[0]] + (w[1..] + Split(t, sep)[0]) == w + Split(t, sep)[0];
    } else {
      assert w + t == t;
      assert w + Split(t, sep)[0] == Split(t, sep)[0];
      assert Split(t, sep) == [Split(t, sep)[0]] + Split(t, sep)[1..];
    }
  }

  /** Joining pieces that do not contain the separator and splitting again
      gives back the pieces. */
  lemma {:induction false} SplitJoin(parts: seq<string>, sep: char)
    requires |parts| >= 1
    requires forall k :: 0 <= k < |parts| ==> sep !in parts[k]
    ensures Split(Join(parts, sep), sep) == parts
  {
    if |parts| == 1 {
      SplitPrefix(parts[0], [], sep);
      assert parts[0] + [] == parts[0];
    } else {
      var tail := [sep] + Join(parts[1..], sep);
      SplitJoin(parts[1..], sep);
      assert tail[1..] == Join(parts[1..], sep);
      assert Split(tail, sep) == [[]] + parts[1..];
      SplitPrefix(parts[0], tail, sep);
      assert parts[0] + [sep] + Join(parts[1..], sep) == parts[0] + tail;
      assert parts[0] + [] == parts[0];
    }
  }

  /** Length of the run of non-space characters that starts `t`. */
  function WordLength(t: string): (n: nat)
    ensures n <= |t| && NoSpace(t[..n]) && (n < |t| ==> IsSpace(t[n]))
    ensures t != [] && !IsSpace(t[0]) ==> n >= 1
  {
    if t == [] || IsSpace(t[0]) then 0 else 1 + WordLength(t[1..])
  }

  /** `str.split()` without arguments: the maximal runs of non-space
      characters, in order; runs of whitespace of any length separate them
      and leading or trailing whitespace yields no empty word. */
  function Words(s: string): (ws: seq<string>)
    ensures forall k :: 0 <= k < |ws| ==> |ws[k]| > 0 && NoSpace(ws[k])
    decreases |s|
  {
    if s == [] then []
    else if IsSpace(s[0]) then Words(s[1..])
    else
      var n := WordLength(s);
      [s[..n]] + Words(s[n..])
  }

  /** A string has no words exactly when it is all whitespace. */
  lemma WordsEmptyIffAllSpace(s: string)
    ensures Words(s) == [] <==> AllSpace(s)
  {
  }

  lemma {:induction false} WordLengthPrefix(w: string, t: string)
    requires NoSpace(w)
    ensures WordLength(w + t) == |w| + WordLength(t)
  {
    if w != [] {
      WordLengthPrefix(w[1..], t);
      assert (w + t)[1..] == w[1..] + t;
      assert (w + t)[0] == w[0];
    } else {
      assert w + t == t;
    }
  }

  /** Whitespace in front of a string adds no words: leading whitespace and
      runs of several blanks vanish. */
  lemma {:induction false} GapWords(g: string, t: string)
    requires AllSpace(g)
    ensures Words(g + t) == Words(t)
  {
    if g != [] {
      assert (g + t)[0] == g[0];
      assert (g + t)[1..] == g[1..] + t;
      GapWords(g[1..], t);
    } else {
      assert g + t == t;
    }
  }

  /** After any whitespace gap, a maximal run of non-space characters (one
      that ends at the end of the string or at a whitespace character) is the
      first word, and the words of the rest follow it. With `GapWords` this
      determines `Words` on every string. */
  lemma WordsSplitOff(g: string, w: string, t: string)
    requires AllSpace(g) && w != [] && NoSpace(w)
    requires t == [] || IsSpace(t[0])
    ensures Words(g + w + t) == [w] + Words(t)
  {
    assert g + w + t == g + (w + t);
    GapWords(g, w + t);
    WordLengthPrefix(w, t);
    assert (w + t)[0] == w[0];
    assert (w + t)[..|w|] == w;
    assert (w + t)[|w|..] == t;
  }

  /** A word followed by a space and further text is split off as the first
      word. */
  lemma WordsCons(w: string, rest: string)
    requires w != [] && NoSpace(w)
    ensures Words(w + ([' '] + rest)) == [w] + Words(rest)
  {
    var gap: string := [' '];
    var t := gap + rest;
    assert AllSpace(gap) && IsSpace(t[0]) by { assert t[0] == ' '; }
    assert w + ([' '] + rest) == [] + w + t;
    WordsSplitOff([], w, t);
    GapWords(gap, rest);
  }

  lemma WordsSingle(w: string)
    requires w != [] && NoSpace(w)
    ensures Words(w) == [w]
  {
    assert TrimLeft(w) == w;
    WordLengthPrefix(w, []);
    assert w + [] == w;
    assert w[..|w|] == w;
    assert Words(w[|w|..]) == [];
  }

  /** Two words with whitespace of any kind and length before, between and
      after them, as in `"  1 \t 2 "`, give exactly those two words. */
  lemma TwoWords(g1: string, w1: string, g2: string, w2: string, g3: string)
    requires AllSpace(g1) && AllSpace(g2) && AllSpace(g3) && g2 != []
    requires w1 != [] && NoSpace(w1) && w2 != [] && NoSpace(w2)
    ensures Words(g1 + w1 + g2 + w2 + g3) == [w1, w2]
  {
    var t := g2 + w2 + g3;
    assert g1 + w1 + g2 + w2 + g3 == g1 + w1 + t;
    assert t[0] == g2[0];
    WordsSplitOff(g1, w1, t);
    WordsSplitOff(g2, w2, g3);
    assert Words(g3) == [] by { WordsEmptyIffAllSpace(g3); }
  }

  /** Words joined by single spaces split back into the same words. */
  lemma {:induction false} WordsJoin(ws: seq<string>)
    requires forall k :: 0 <= k < |ws| ==> |ws[k]| > 0 && NoSpace(ws[k])
    ensures Words(Join(ws, ' ')) == ws
  {
    if ws == [] {
    } else if |ws| == 1 {
      WordsSingle(ws[0]);
    } else {
      var rest := Join(ws[1..], ' ');
      WordsJoin(ws[1..]);
      WordsCons(ws[0], rest);
      assert Join(ws, ' ') == ws[0] + ([' '] + rest);
    }
  }
}
