/** The JavaScript string operations the record logic relies on: `trim`,
    `toLowerCase` (ASCII part), `includes`, `split` on one character and `join`. */
module Text {

  /** The code points JavaScript's `String.prototype.trim` removes: the
      WhiteSpace and LineTerminator productions of ECMAScript. */
  predicate IsSpace(c: char) {
    || c == '\t' || c == '\n' || c == '\U{B}' || c == '\U{C}' || c == '\r' || c == ' '
    || c == '\U{A0}' || c == '\U{1680}' || ('\U{2000}' <= c <= '\U{200A}')
    || c == '\U{2028}' || c == '\U{2029}' || c == '\U{202F}' || c == '\U{205F}'
    || c == '\U{3000}' || c == '\U{FEFF}'
  }

  predicate AllSpace(s: string) {
    forall i :: 0 <= i < |s| ==> IsSpace(s[i])
  }

  /** No whitespace at either end: what `trim` leaves behind. */
  predicate IsTrimmed(s: string) {
    |s| == 0 || (!IsSpace(s[0]) && !IsSpace(s[|s| - 1]))
  }

  /** JavaScript `s.trim()`: strips whitespace from both ends. Neither end of
      the result is whitespace, and the result is empty exactly when `s` is
      all whitespace (`TrimIsSlice` says where in `s` it sits). */
  function Trim(s: string): (r: string)
    ensures IsTrimmed(r)
    ensures r == [] <==> AllSpace(s)
    ensures |r| <= |s|
  {
    if |s| > 0 && IsSpace(s[0]) then
      assert AllSpace(s) <==> AllSpace(s[1..]);
      Trim(s[1..])
    else if |s| > 0 && IsSpace(s[|s| - 1]) then
      assert AllSpace(s) <==> AllSpace(s[..|s| - 1]);
      Trim(s[..|s| - 1])
    else s
  }

  /** `s` is `t` with whitespace-only `pre` in front and `post` behind. */
  predicate Framed(s: string, i: nat, t: string) {
    i + |t| <= |s| && t == s[i..i + |t|] && AllSpace(s[..i]) && AllSpace(s[i + |t|..])
  }

  /** `trim` cuts a whitespace-only prefix and a whitespace-only suffix off `s`. */
  lemma {:induction false} TrimIsSlice(s: string) returns (i: nat)
    ensures Framed(s, i, Trim(s))
  {
    if |s| > 0 && IsSpace(s[0]) {
      var j := TrimIsSlice(s[1..]);
      i := j + 1;
      FramedFront(s, j, Trim(s));
    } else if |s| > 0 && IsSpace(s[|s| - 1]) {
      i := TrimIsSlice(s[..|s| - 1]);
      FramedBack(s, i, Trim(s));
    } else {
      i := 0;
    }
  }

  lemma FramedFront(s: string, j: nat, t: string)
    requires |s| > 0 && IsSpace(s[0]) && Framed(s[1..], j, t)
    ensures Framed(s, j + 1, t)
  {
    assert s[..j + 1] == [s[0]] + s[1..][..j];
    assert s[1..][j + |t|..] == s[j + 1 + |t|..];
  }

  lemma FramedBack(s: string, i: nat, t: string)
    requires |s| > 0 && IsSpace(s[|s| - 1]) && Framed(s[..|s| - 1], i, t)
    ensures Framed(s, i, t)
  {
    var u := s[..|s| - 1];
    assert u[..i] == s[..i];
    assert s[i + |t|..] == u[i + |t|..] + [s[|s| - 1]];
  }

  /** `trim` never introduces a character. */
  lemma TrimKeepsOut(s: string, c: char)
    requires c !in s
    ensures c !in Trim(s)
  {
  }

  lemma TrimOfTrimmed(s: string)
    requires IsTrimmed(s)
    ensures Trim(s) == s
  {
  }

  /** Leading whitespace in front of a trimmed string is exactly what `trim` removes. */
  lemma {:induction false} TrimAfterSpaces(p: string, s: string)
    requires AllSpace(p) && IsTrimmed(s) && |s| > 0
    ensures Trim(p + s) == s
  {
    if |p| == 0 {
      assert p + s == s;
    } else {
      assert (p + s)[1..] == p[1..] + s;
      TrimAfterSpaces(p[1..], s);
    }
  }

  function LowerChar(c: char): char {
    if 'A' <= c <= 'Z' then (c as int + 32) as char else c
  }

  /** `toLowerCase` on the ASCII range: every letter A-Z becomes a-z, everything else is kept. */
  function Lower(s: string): (r: string)
    ensures |r| == |s|
    ensures forall i :: 0 <= i < |s| ==> r[i] == LowerChar(s[i])
  {
    if |s| == 0 then [] else [LowerChar(s[0])] + Lower(s[1..])
  }

  /** Reference meaning of "`needle` occurs in `hay`". */
  ghost predicate IsSubstring(needle: string, hay: string) {
    exists i :: OccursAt(needle, hay, i)
  }

  ghost predicate OccursAt(needle: string, hay: string, i: int) {
    0 <= i <= |hay| - |needle| && hay[i..i + |needle|] == needle
  }

  predicate StartsWith(s: string, prefix: string) {
    |prefix| <= |s| && s[..|prefix|] == prefix
  }

  /** JavaScript `hay.includes(needle)`, by scanning the start positions left to right. */
  function Includes(hay: string, needle: string): bool
    decreases |hay|
  {
    StartsWith(hay, needle) || (|hay| > 0 && Includes(hay[1..], needle))
  }

  lemma {:induction false} IncludesIsSubstring(hay: string, needle: string)
    ensures Includes(hay, needle) <==> IsSubstring(needle, hay)
    decreases |hay|
  {
    if StartsWith(hay, needle) {
      assert OccursAt(needle, hay, 0);
    } else if |hay| == 0 {
      assert !IsSubstring(needle, hay);
    } else {
      IncludesIsSubstring(hay[1..], needle);
      if IsSubstring(needle, hay) {
        var i :| OccursAt(needle, hay, i);
        assert i != 0;
        assert hay[1..][i - 1..i - 1 + |needle|] == needle;
        assert OccursAt(needle, hay[1..], i - 1);
      }
      if IsSubstring(needle, hay[1..]) {
        var i :| OccursAt(needle, hay[1..], i);
        assert hay[i + 1..i + 1 + |needle|] == needle;
        assert OccursAt(needle, hay, i + 1);
      }
    }
  }

  /** JavaScript `s.split(sep)` for a one-character separator: the pieces
      between separators, so `""` gives `[""]` and `n` separators give `n + 1` pieces. */
  function Split(s: string, sep: char): (parts: seq<string>)
    ensures |parts| >= 1
    ensures forall i :: 0 <= i < |parts| ==> sep !in parts[i]
    ensures |parts| == 1 + |s| - |Without(s, sep)|
  {
    if |s| == 0 then [""]
    else
      var rest := Split(s[1..], sep);
      if s[0] == sep then [""] + rest else [[s[0]] + rest[0]] + rest[1..]
  }

  /** `s` with every occurrence of `c` removed. */
  function Without(s: string, c: char): string {
    if |s| == 0 then [] else (if s[0] == c then [] else [s[0]]) + Without(s[1..], c)
  }

  /** JavaScript `xs.join(sep)`. */
  function Join(xs: seq<string>, sep: string): string {
    if |xs| == 0 then "" else if |xs| == 1 then xs[0] else xs[0] + sep + Join(xs[1..], sep)
  }

  lemma JoinCons(c: char, x: string, ys: seq<string>, sep: string)
    ensures Join([[c] + x] + ys, sep) == [c] + Join([x] + ys, sep)
  {
    assert ([[c] + x] + ys)[1..] == ys;
    assert ([x] + ys)[1..] == ys;
  }

  /** Splitting and joining back with the same separator gives the original string. */
  lemma {:induction false} JoinSplit(s: string, sep: char)
    ensures Join(Split(s, sep), [sep]) == s
    decreases |s|
  {
    if |s| > 0 {
      var rest := Split(s[1..], sep);
      JoinSplit(s[1..], sep);
      if s[0] == sep {
        assert ([""] + rest)[1..] == rest;
      } else {
        JoinCons(s[0], rest[0], rest[1..], [sep]);
        assert [rest[0]] + rest[1..] == rest;
      }
    }
  }

  lemma {:induction false} SplitWithoutSep(a: string, sep: char)
    requires sep !in a
    ensures Split(a, sep) == [a]
    decreases |a|
  {
    if |a| > 0 {
      assert sep !in a[1..];
      SplitWithoutSep(a[1..], sep);
      assert [a[0]] + a[1..] == a;
    }
  }

  /** A separator cuts off the piece in front of it. */
  lemma {:induction false} SplitAtSep(a: string, sep: char, b: string)
    requires sep !in a
    ensures Split(a + [sep] + b, sep) == [a] + Split(b, sep)
    decreases |a|
  {
    if |a| == 0 {
      assert a + [sep] + b == [sep] + b;
      assert ([sep] + b)[1..] == b;
    } else {
      assert (a + [sep] + b)[1..] == a[1..] + [sep] + b;
      SplitAtSep(a[1..], sep, b);
      assert [a[0]] + a[1..] == a;
    }
  }

  /** Each element of `xs` with `pad` in front of it. */
  function Prefixed(pad: string, xs: seq<string>): (r: seq<string>)
    ensures |r| == |xs|
    ensures forall i :: 0 <= i < |xs| ==> r[i] == pad + xs[i]
  {
    if |xs| == 0 then [] else [pad + xs[0]] + Prefixed(pad, xs[1..])
  }

  /** Splitting a join whose separator is `sep` followed by padding gives back
      the pieces, each after the first carrying the padding in front. */
  lemma {:induction false} SplitJoinPadded(p: string, xs: seq<string>, sep: char, pad: string)
    requires |xs| >= 1
    requires sep !in p && sep !in pad
    requires forall i :: 0 <= i < |xs| ==> sep !in xs[i]
    ensures Split(p + Join(xs, [sep] + pad), sep) == [p + xs[0]] + Prefixed(pad, xs[1..])
    decreases |xs|
  {
    if |xs| == 1 {
      assert p + Join(xs, [sep] + pad) == p + xs[0];
      SplitWithoutSep(p + xs[0], sep);
    } else {
      var tail := Join(xs[1..], [sep] + pad);
      assert p + Join(xs, [sep] + pad) == (p + xs[0]) + [sep] + (pad + tail);
      SplitAtSep(p + xs[0], sep, pad + tail);
      SplitJoinPadded(pad, xs[1..], sep, pad);
      assert Prefixed(pad, xs[1..]) == [pad + xs[1]] + Prefixed(pad, xs[2..]);
    }
  }

  /** The first position of `c` in `s`, or -1; the address check scans with it. */
  function IndexOf(s: string, c: char): (r: int)
    ensures -1 <= r < |s|
    ensures r == -1 <==> c !in s
    ensures r >= 0 ==> s[r] == c && c !in s[..r]
  {
    if |s| == 0 then -1
    else if s[0] == c then 0
    else
      var k := IndexOf(s[1..], c);
      if k == -1 then -1 else k + 1
  }

  /** The last position of `c` in `s`, or -1; the address check scans with it. */
  function LastIndexOf(s: string, c: char): (r: int)
    ensures -1 <= r < |s|
    ensures r == -1 <==> c !in s
    ensures r >= 0 ==> s[r] == c && c !in s[r + 1..]
  {
    if |s| == 0 then -1
    else if s[|s| - 1] == c then |s| - 1
    else
      var k := LastIndexOf(s[..|s| - 1], c);
      assert s == s[..|s| - 1] + [s[|s| - 1]];
      k
  }
}
