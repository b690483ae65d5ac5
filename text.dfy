/** The string operations of Python that the analyzers rely on:
    `str.splitlines`, `str.split(sep)`, `str.split()`, `str.strip`,
    `str.lower`, `in` on strings and `str.startswith`. */
module Text {

  // ---------------------------------------------------------------
  // Substrings
  // ---------------------------------------------------------------

  /** Python's `sub in s`. */
  function Contains(s: string, sub: string): bool
    decreases |s|
  {
    sub <= s || (s != [] && Contains(s[1..], sub))
  }

  /** A character of the needle occurs in every string that contains it. */
  lemma {:induction false} ContainsChar(s: string, sub: string, k: nat)
    requires Contains(s, sub) && k < |sub|
    ensures sub[k] in s
    decreases |s|
  {
    if sub <= s {
      assert s[k] == sub[k];
    } else {
      ContainsChar(s[1..], sub, k);
    }
  }

  /** A needle found at position `i` is contained. */
  lemma {:induction false} ContainsAt(s: string, sub: string, i: nat)
    requires i + |sub| <= |s| && s[i..i + |sub|] == sub
    ensures Contains(s, sub)
    decreases i
  {
    if i == 0 {
      assert sub <= s;
    } else {
      assert s[1..][i - 1..i - 1 + |sub|] == sub;
      ContainsAt(s[1..], sub, i - 1);
    }
  }

  /** A text that contains a needle contains every prefix of it. */
  lemma {:induction false} ContainsPrefix(s: string, sub: string, k: nat)
    requires Contains(s, sub) && k <= |sub|
    ensures Contains(s, sub[..k])
    decreases |s|
  {
    if !(sub <= s) {
      ContainsPrefix(s[1..], sub, k);
    }
  }

  /** Python's `s.startswith(p)`. */
  predicate StartsWith(s: string, p: string) {
    p <= s
  }

  /** Python's `s.endswith(p)`. */
  predicate EndsWith(s: string, p: string) {
    |p| <= |s| && s[|s| - |p|..] == p
  }

  // ---------------------------------------------------------------
  // str.splitlines
  // ---------------------------------------------------------------

  /** The characters on which Python's `str.splitlines` ends a line. */
  predicate IsLineBreak(c: char) {
    c == '\n' || c == '\r' || c == '\U{000B}' || c == '\U{000C}'
    || c == '\U{001C}' || c == '\U{001D}' || c == '\U{001E}'
    || c == '\U{0085}' || c == '\U{2028}' || c == '\U{2029}'
  }

  predicate BreakFree(s: string) {
    forall i :: 0 <= i < |s| ==> !IsLineBreak(s[i])
  }

  /** Index of the first line break of `s`, or `|s|` when there is none. */
  function LineEnd(s: string): (i: nat)
    ensures i <= |s|
    ensures BreakFree(s[..i])
    ensures i < |s| ==> IsLineBreak(s[i])
    decreases |s|
  {
    if s == [] || IsLineBreak(s[0]) then 0
    else
      var j := LineEnd(s[1..]);
      assert s[..1 + j] == [s[0]] + s[1..][..j];
      1 + j
  }

  /** Length of the line terminator at `i`: "\r\n" is one terminator. */
  function TerminatorLength(s: string, i: nat): (n: nat)
    requires i < |s|
    ensures 1 <= n <= |s| - i
  {
    if s[i] == '\r' && i + 1 < |s| && s[i + 1] == '\n' then 2 else 1
  }

  /** Python's `s.splitlines()`: the lines of `s` without their
      terminators; a terminator at the very end opens no further line. */
  function SplitLines(s: string): (lines: seq<string>)
    ensures forall k :: 0 <= k < |lines| ==> BreakFree(lines[k])
    ensures s == [] <==> lines == []
    decreases |s|
  {
    if s == [] then []
    else
      var i := LineEnd(s);
      if i == |s| then [s]
      else [s[..i]] + SplitLines(s[i + TerminatorLength(s, i)..])
  }

  /** `"\n".join(lines)`. */
  function JoinLines(lines: seq<string>): string {
    if |lines| == 0 then ""
    else if |lines| == 1 then lines[0]
    else lines[0] + "\n" + JoinLines(lines[1..])
  }

  lemma {:induction false} LineEndOfBreakFree(s: string)
    requires BreakFree(s)
    ensures LineEnd(s) == |s|
    decreases |s|
  {
    if s != [] {
      LineEndOfBreakFree(s[1..]);
    }
  }

  lemma {:induction false} LineEndAtBreak(a: string, c: char, b: string)
    requires BreakFree(a) && IsLineBreak(c)
    ensures LineEnd(a + [c] + b) == |a|
    decreases |a|
  {
    if a != [] {
      assert (a + [c] + b)[1..] == a[1..] + [c] + b;
      LineEndAtBreak(a[1..], c, b);
    }
  }

  /** Lines without breaks, the last of them non-empty, survive
      joining with "\n" and splitting again. */
  lemma {:induction false} SplitJoinLines(lines: seq<string>)
    requires forall k :: 0 <= k < |lines| ==> BreakFree(lines[k])
    requires lines == [] || lines[|lines| - 1] != []
    ensures SplitLines(JoinLines(lines)) == lines
    decreases |lines|
  {
    if |lines| == 1 {
      LineEndOfBreakFree(lines[0]);
    } else if |lines| > 1 {
      var rest := JoinLines(lines[1..]);
      var s := lines[0] + "\n" + rest;
      LineEndAtBreak(lines[0], '\n', rest);
      var i := |lines[0]|;
      assert s[i] == '\n';
      assert TerminatorLength(s, i) == 1;
      assert s[..i] == lines[0];
      assert s[i + 1..] == rest;
      SplitJoinLines(lines[1..]);
      assert lines == [lines[0]] + lines[1..];
    }
  }

  /** Text whose only line breaks are "\n" and that does not end in one
      is rebuilt by joining its lines with "\n". */
  lemma {:induction false} JoinSplitLines(s: string)
    requires forall i :: 0 <= i < |s| && IsLineBreak(s[i]) ==> s[i] == '\n'
    requires s == [] || s[|s| - 1] != '\n'
    ensures JoinLines(SplitLines(s)) == s
    decreases |s|
  {
    if s != [] {
      var i := LineEnd(s);
      if i < |s| {
        assert s[i] == '\n';
        assert TerminatorLength(s, i) == 1;
        var rest := s[i + 1..];
        assert forall j :: 0 <= j < |rest| ==> rest[j] == s[i + 1 + j];
        JoinSplitLines(rest);
        var lines := [s[..i]] + SplitLines(rest);
        assert SplitLines(s) == lines;
        assert lines[1..] == SplitLines(rest);
        assert s == s[..i] + "\n" + rest;
      }
    }
  }

  /** One more line terminator after a last line that has content adds
      no line: `(s + "\n").splitlines() == s.splitlines()`. */
  lemma {:induction false} TrailingBreakAddsNoLine(s: string, c: char)
    requires s != [] && !IsLineBreak(s[|s| - 1]) && IsLineBreak(c)
    ensures SplitLines(s + [c]) == SplitLines(s)
    decreases |s|
  {
    var t := s + [c];
    var i := LineEnd(s);
    if i == |s| {
      LineEndAtBreak(s, c, []);
      assert t + [] == t;
      assert t[..|s|] == s;
      assert t[|s| + 1..] == [];
    } else {
      assert BreakFree(s[..i]) && IsLineBreak(s[i]);
      assert t == s[..i] + [s[i]] + (s[i + 1..] + [c]);
      LineEndAtBreak(s[..i], s[i], s[i + 1..] + [c]);
      assert i + 1 < |s|;
      var n := TerminatorLength(s, i);
      assert TerminatorLength(t, i) == n;
      assert i + n < |s|;
      var rest := s[i + n..];
      assert t[i + n..] == rest + [c];
      assert t[..i] == s[..i];
      TrailingBreakAddsNoLine(rest, c);
    }
  }

  // ---------------------------------------------------------------
  // str.split(sep) and its inverse
  // ---------------------------------------------------------------

  /** Python's `s.split(sep)` for a non-empty separator: cut at the
      leftmost non-overlapping occurrences of `sep`. */
  function SplitOn(s: string, sep: string): (parts: seq<string>)
    requires sep != []
    ensures |parts| >= 1
    decreases |s|
  {
    if s == [] then [""]
    else if sep <= s then [""] + SplitOn(s[|sep|..], sep)
    else
      var rest := SplitOn(s[1..], sep);
      [[s[0]] + rest[0]] + rest[1..]
  }

  /** `sep.join(parts)`. */
  function Join(parts: seq<string>, sep: string): string
    requires |parts| >= 1
  {
    if |parts| == 1 then parts[0] else parts[0] + sep + Join(parts[1..], sep)
  }

  /** Joining one more part appends the separator and that part. */
  lemma {:induction false} JoinSnoc(parts: seq<string>, x: string, sep: string)
    requires |parts| >= 1
    ensures Join(parts + [x], sep) == Join(parts, sep) + sep + x
    decreases |parts|
  {
    assert (parts + [x])[0] == parts[0];
    if |parts| == 1 {
      assert (parts + [x])[1..] == [x];
    } else {
      assert (parts + [x])[1..] == parts[1..] + [x];
      JoinSnoc(parts[1..], x, sep);
    }
  }

  /** Splitting and joining with the same separator gives back the text. */
  lemma {:induction false} JoinSplitOn(s: string, sep: string)
    requires sep != []
    ensures Join(SplitOn(s, sep), sep) == s
    decreases |s|
  {
    if s == [] {
    } else if sep <= s {
      var tail := s[|sep|..];
      JoinSplitOn(tail, sep);
      JoinAfterEmpty(SplitOn(tail, sep), sep);
      assert s == sep + tail;
    } else {
      var rest := SplitOn(s[1..], sep);
      JoinSplitOn(s[1..], sep);
      JoinCons(s[0], rest, sep);
      assert s == [s[0]] + s[1..];
    }
  }

  /** An empty first part contributes only the separator. */
  lemma JoinAfterEmpty(parts: seq<string>, sep: string)
    requires |parts| >= 1
    ensures Join([""] + parts, sep) == sep + Join(parts, sep)
  {
    assert ([""] + parts)[1..] == parts;
  }

  /** Prepending a character to the first part prepends it to the join. */
  lemma JoinCons(c: char, parts: seq<string>, sep: string)
    requires |parts| >= 1
    ensures Join([[c] + parts[0]] + parts[1..], sep) == [c] + Join(parts, sep)
  {
    var q := [[c] + parts[0]] + parts[1..];
    if |parts| > 1 {
      assert q[1..] == parts[1..];
    }
  }

  /** `sep in s` exactly when splitting on `sep` gives more than one part. */
  lemma {:induction false} SplitOnCutsIffContains(s: string, sep: string)
    requires sep != []
    ensures Contains(s, sep) <==> |SplitOn(s, sep)| > 1
    decreases |s|
  {
    if s != [] && !(sep <= s) {
      SplitOnCutsIffContains(s[1..], sep);
    }
  }

  /** No part of a split on one character contains that character. */
  lemma {:induction false} SplitOnCharParts(s: string, c: char)
    ensures forall k :: 0 <= k < |SplitOn(s, [c])| ==> c !in SplitOn(s, [c])[k]
    decreases |s|
  {
    if s != [] {
      SplitOnCharParts(s[|[c]|..], c);
      SplitOnCharParts(s[1..], c);
    }
  }

  /** Splitting on one character distributes over a concatenation at
      that character. */
  lemma {:induction false} SplitOnCharAppend(a: string, c: char, x: string)
    ensures SplitOn(a + [c] + x, [c]) == SplitOn(a, [c]) + SplitOn(x, [c])
    decreases |a|
  {
    var s := a + [c] + x;
    if a == [] {
      assert s == [c] + x;
      assert [c] <= s;
      assert s[1..] == x;
    } else if a[0] == c {
      assert [c] <= s && [c] <= a;
      assert s[1..] == a[1..] + [c] + x;
      SplitOnCharAppend(a[1..], c, x);
    } else {
      assert !([c] <= s) && !([c] <= a);
      assert s[1..] == a[1..] + [c] + x;
      SplitOnCharAppend(a[1..], c, x);
      var q := SplitOn(a[1..], [c]);
      assert SplitOn(s[1..], [c]) == q + SplitOn(x, [c]);
    }
  }

  /** Text without the character `c` is a single part. */
  lemma {:induction false} SplitOnCharAbsent(x: string, c: char)
    requires c !in x
    ensures SplitOn(x, [c]) == [x]
    decreases |x|
  {
    if x != [] {
      assert x[0] != c;
      assert !([c] <= x);
      SplitOnCharAbsent(x[1..], c);
      assert x == [x[0]] + x[1..];
    }
  }

  // ---------------------------------------------------------------
  // Whitespace: str.strip and str.split()
  // ---------------------------------------------------------------

  /** The characters for which Python's `str.isspace` holds. */
  predicate IsSpace(c: char) {
    c == ' ' || c == '\t' || c == '\n' || c == '\r' || c == '\U{000B}' || c == '\U{000C}'
    || c == '\U{001C}' || c == '\U{001D}' || c == '\U{001E}' || c == '\U{001F}'
    || c == '\U{0085}' || c == '\U{00A0}' || c == '\U{1680}'
    || ('\U{2000}' <= c <= '\U{200A}')
    || c == '\U{2028}' || c == '\U{2029}' || c == '\U{202F}' || c == '\U{205F}' || c == '\U{3000}'
  }

  /** `s.lstrip()`: a suffix of `s`, all whitespace removed from its front. */
  function TrimStart(s: string): (r: string)
    ensures |r| <= |s| && r == s[|s| - |r|..]
    ensures forall k :: 0 <= k < |s| - |r| ==> IsSpace(s[k])
    ensures r == [] || !IsSpace(r[0])
    decreases |s|
  {
    if s != [] && IsSpace(s[0]) then TrimStart(s[1..]) else s
  }

  /** `s.rstrip()`: a prefix of `s`, all whitespace removed from its end. */
  function TrimEnd(s: string): (r: string)
    ensures |r| <= |s| && r == s[..|r|]
    ensures forall k :: |r| <= k < |s| ==> IsSpace(s[k])
    ensures r == [] || !IsSpace(r[|r| - 1])
    decreases |s|
  {
    if s != [] && IsSpace(s[|s| - 1]) then TrimEnd(s[..|s| - 1]) else s
  }

  /** `s.strip()`. */
  function Strip(s: string): (r: string)
    ensures r == [] || (!IsSpace(r[0]) && !IsSpace(r[|r| - 1]))
  {
    TrimEnd(TrimStart(s))
  }

  /** `len(s.split())`: the number of maximal runs of non-whitespace. */
  function WordCount(s: string): (n: nat)
    ensures n == 0 <==> forall i :: 0 <= i < |s| ==> IsSpace(s[i])
    ensures n <= |s|
    decreases |s|
  {
    if s == [] then 0
    else if IsSpace(s[0]) then WordCount(s[1..])
    else if |s| == 1 || IsSpace(s[1]) then 1 + WordCount(s[1..])
    else WordCount(s[1..])
  }

  // ---------------------------------------------------------------
  // str.lower
  // ---------------------------------------------------------------

  function LowerChar(c: char): char {
    if 'A' <= c <= 'Z' then (c as int - 'A' as int + 'a' as int) as char else c
  }

  /** `s.lower()` on ASCII letters; every other character is kept. */
  function Lower(s: string): (r: string)
    ensures |r| == |s|
    ensures forall i :: 0 <= i < |s| ==> r[i] == LowerChar(s[i])
  {
    seq(|s|, i requires 0 <= i < |s| => LowerChar(s[i]))
  }

  /** Lowering twice is lowering once. */
  lemma LowerIdempotent(s: string)
    ensures Lower(Lower(s)) == Lower(s)
  {
  }

  /** A text that is already lower case is its own lower case. */
  lemma LowerOfLowercase(s: string)
    requires forall i :: 0 <= i < |s| ==> !('A' <= s[i] <= 'Z')
    ensures Lower(s) == s
  {
  }
}
