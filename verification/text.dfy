/** Text helpers the chat service relies on: Python's `str.join` and
    `str.strip()` with its whitespace table. `Split`, Python's `str.split` with
    a one-character separator, is not used by the service: it is the inverse
    against which `Join` is stated. Strings are sequences of Unicode scalar
    values; a Python `str` may also hold lone surrogates, which have no
    counterpart here. */
module Text {

  /** Python's `str.isspace()` for a single character: the characters CPython
      treats as whitespace (bidirectional class WS, B or S, or category Zs). */
  predicate IsWhitespace(c: char) {
    || '\t' <= c <= '\r'
    || '\U{1C}' <= c <= ' '
    || c == '\U{85}' || c == '\U{A0}' || c == '\U{1680}'
    || '\U{2000}' <= c <= '\U{200A}'
    || c == '\U{2028}' || c == '\U{2029}' || c == '\U{202F}' || c == '\U{205F}'
    || c == '\U{3000}'
  }

  /** All characters of `s` are whitespace (vacuously true of the empty string). */
  ghost predicate AllWhitespace(s: string) {
    forall k :: 0 <= k < |s| ==> IsWhitespace(s[k])
  }

  /** `s.lstrip()`: the suffix of `s` left after dropping leading whitespace. */
  function TrimLeft(s: string): (r: string)
    ensures |r| <= |s| && r == s[|s| - |r|..]
    ensures AllWhitespace(s[..|s| - |r|])
    ensures r != [] ==> !IsWhitespace(r[0])
  {
    if s != [] && IsWhitespace(s[0]) then
      var r := TrimLeft(s[1..]);
      assert s[..|s| - |r|] == [s[0]] + s[1..][..|s| - 1 - |r|];
      r
    else s
  }

  /** `s.rstrip()`: the prefix of `s` left after dropping trailing whitespace. */
  function TrimRight(s: string): (r: string)
    ensures |r| <= |s| && r == s[..|r|]
    ensures AllWhitespace(s[|r|..])
    ensures r != [] ==> !IsWhitespace(r[|r| - 1])
  {
    if s != [] && IsWhitespace(s[|s| - 1]) then
      var r := TrimRight(s[..|s| - 1]);
      assert s[|r|..] == s[..|s| - 1][|r|..] + [s[|s| - 1]];
      r
    else s
  }

  /** `s.strip()` with no argument. */
  function Strip(s: string): string {
    TrimRight(TrimLeft(s))
  }

  /** `s.strip()` is empty exactly when every character of `s` is
      whitespace. */
  lemma {:induction false} StripEmptyIffAllWhitespace(s: string)
    ensures Strip(s) == [] <==> AllWhitespace(s)
  {
    var t := TrimLeft(s);
    assert s == s[..|s| - |t|] + t;
    if t != [] {
      assert t[0] == s[|s| - |t|];
    }
    if Strip(s) == [] {
      assert t == t[0..];
      assert AllWhitespace(t);
    }
  }

  /** The guard `not s or not s.strip()`: `s` is empty or made only of
      whitespace, which is to say every character of it is whitespace. */
  function IsBlank(s: string): (blank: bool)
    ensures blank <==> AllWhitespace(s)
  {
    StripEmptyIffAllWhitespace(s);
    s == [] || Strip(s) == []
  }

  /** The characters for which CPython's `str.isspace()` is true, listed one
      code point at a time: the ten ASCII ones (tab through carriage return,
      the separators 0x1C-0x1F, space) and the nineteen beyond ASCII. */
  const PyWhitespace: set<char> := {
    '\U{09}', '\U{0A}', '\U{0B}', '\U{0C}', '\U{0D}',
    '\U{1C}', '\U{1D}', '\U{1E}', '\U{1F}', '\U{20}',
    '\U{85}', '\U{A0}', '\U{1680}',
    '\U{2000}', '\U{2001}', '\U{2002}', '\U{2003}', '\U{2004}', '\U{2005}',
    '\U{2006}', '\U{2007}', '\U{2008}', '\U{2009}', '\U{200A}',
    '\U{2028}', '\U{2029}', '\U{202F}', '\U{205F}', '\U{3000}'
  }

  /** The whitespace table agrees with Python's `str.isspace()`: a character
      is whitespace exactly when it is one of the 29 listed code points. In
      particular, on ASCII it is exactly tab, line feed, vertical tab, form
      feed, carriage return, the four separators 0x1C-0x1F and space, and the
      zero-width space and the byte-order mark are not whitespace. */
  lemma WhitespaceTable()
    ensures forall c: char :: IsWhitespace(c) <==> c in PyWhitespace
    ensures forall c: char :: c < '\U{80}' ==>
              (IsWhitespace(c) <==> ('\t' <= c <= '\r' || '\U{1C}' <= c <= '\U{1F}' || c == ' '))
    ensures IsWhitespace('\U{A0}') && IsWhitespace('\U{3000}')
    ensures IsWhitespace('\U{2028}') && IsWhitespace('\U{2029}')
    ensures !IsWhitespace('\U{200B}') && !IsWhitespace('\U{FEFF}') && !IsWhitespace('a')
  {
  }

  /** Python's `sep.join(lines)`. */
  function Join(lines: seq<string>, sep: string): (r: string)
    ensures |lines| > 0 ==> lines[0] <= r
  {
    if |lines| == 0 then ""
    else if |lines| == 1 then lines[0]
    else lines[0] + sep + Join(lines[1..], sep)
  }

  /** Position of the first occurrence of `c` in `s`. */
  function FirstIndex(s: string, c: char): (i: nat)
    requires c in s
    ensures i < |s| && s[i] == c && c !in s[..i]
  {
    if s[0] == c then 0 else 1 + FirstIndex(s[1..], c)
  }

  /** Python's `s.split(c)` for a one-character separator `c`: the maximal
      pieces of `s` between occurrences of `c`, always at least one piece. */
  function Split(s: string, c: char): (r: seq<string>)
    ensures |r| > 0
    ensures forall i :: 0 <= i < |r| ==> c !in r[i]
    decreases |s|
  {
    if c !in s then [s]
    else
      var i := FirstIndex(s, c);
      [s[..i]] + Split(s[i + 1..], c)
  }

  /** The first occurrence of `c` is at `j` when `s[j]` is `c` and no earlier
      character is. */
  lemma {:induction false} FirstIndexAt(s: string, c: char, j: nat)
    requires j < |s| && s[j] == c && c !in s[..j]
    ensures FirstIndex(s, c) == j
    decreases j
  {
    if j > 0 {
      assert s[0] == s[..j][0];
      assert s[1..][..j - 1] == s[1..j];
      FirstIndexAt(s[1..], c, j - 1);
    }
  }

  /** Splitting on `c` undoes joining with `c`, as long as no line holds `c`:
      the joined text has exactly one piece per line, in order. */
  lemma {:induction false} SplitJoin(lines: seq<string>, c: char)
    requires |lines| > 0
    requires forall i :: 0 <= i < |lines| ==> c !in lines[i]
    ensures Split(Join(lines, [c]), c) == lines
    decreases |lines|
  {
    if |lines| > 1 {
      var x, rest := lines[0], lines[1..];
      var tail := Join(rest, [c]);
      var s := x + [c] + tail;
      assert Join(lines, [c]) == s;
      Around(x, c, tail);
      FirstIndexAt(s, c, |x|);
      SplitJoin(rest, c);
      assert Split(s, c) == [x] + rest;
      assert lines == [x] + rest;
    }
  }

  /** The pieces of `x + [c] + t` around the `c` after `x`. */
  lemma Around(x: string, c: char, t: string)
    ensures var s := x + [c] + t;
            && |s| == |x| + 1 + |t|
            && s[..|x|] == x && s[|x|] == c && s[|x| + 1..] == t
  {
  }

  /** Joining with `c` undoes splitting on `c`: no text is lost or added. */
  lemma {:induction false} JoinSplit(s: string, c: char)
    ensures Join(Split(s, c), [c]) == s
    decreases |s|
  {
    if c in s {
      var i := FirstIndex(s, c);
      var head, tail := s[..i], s[i + 1..];
      var rest := Split(tail, c);
      JoinSplit(tail, c);
      var pieces := [head] + rest;
      assert Split(s, c) == pieces;
      assert |pieces| > 1 && pieces[0] == head && pieces[1..] == rest;
      assert Join(pieces, [c]) == head + [c] + Join(rest, [c]);
      assert s == head + [c] + tail;
    }
  }
}
