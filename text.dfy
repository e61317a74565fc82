/**
 * The pieces of Go's `strings` package that the error-help wrapper relies
 * on: white space as `unicode.IsSpace` defines it, `strings.Fields`,
 * `strings.TrimSpace`, splitting on '\n', and `len` of a string, which
 * counts UTF-8 bytes rather than characters.
 */
module Text {

  /** `unicode.IsSpace`: the Unicode White_Space characters. */
  predicate IsSpace(c: char) {
    || c == '\t' || c == '\n' || c == '\U{000B}' || c == '\U{000C}' || c == '\r' || c == ' '
    || c == '\U{0085}' || c == '\U{00A0}' || c == '\U{1680}'
    || ('\U{2000}' <= c <= '\U{200A}')
    || c == '\U{2028}' || c == '\U{2029}' || c == '\U{202F}' || c == '\U{205F}' || c == '\U{3000}'
  }

  /** A word in the sense of `strings.Fields`: non-empty, no white space. */
  predicate IsWord(w: string) {
    |w| > 0 && forall i :: 0 <= i < |w| ==> !IsSpace(w[i])
  }

  predicate AllSpace(s: string) {
    forall i :: 0 <= i < |s| ==> IsSpace(s[i])
  }

  /** Length of the run of non-space characters that `s` starts with. */
  function WordLen(s: string): (n: nat)
    ensures n <= |s|
    ensures forall i :: 0 <= i < n ==> !IsSpace(s[i])
    ensures n < |s| ==> IsSpace(s[n])
  {
    if s == [] || IsSpace(s[0]) then 0 else 1 + WordLen(s[1..])
  }

  /** `strings.Fields`: the maximal runs of non-space characters, in order. */
  function Fields(s: string): (ws: seq<string>)
    ensures forall i :: 0 <= i < |ws| ==> IsWord(ws[i])
    decreases |s|
  {
    if s == [] then []
    else if IsSpace(s[0]) then Fields(s[1..])
    else
      var n := WordLen(s);
      [s[..n]] + Fields(s[n..])
  }

  /** A word followed by anything that stops it keeps its length. */
  lemma {:induction false} WordLenStops(a: string, t: string)
    requires WordLen(a) < |a| || (t != [] && IsSpace(t[0]))
    ensures WordLen(a + t) == WordLen(a)
    decreases |a|
  {
    if a != [] && !IsSpace(a[0]) {
      assert (a + t)[1..] == a[1..] + t;
      WordLenStops(a[1..], t);
    }
  }

  /** A white-space character splits the fields: `Fields(a + c + b) == Fields(a) + Fields(b)`. */
  lemma {:induction false} FieldsSplit(a: string, c: char, b: string)
    requires IsSpace(c)
    ensures Fields(a + [c] + b) == Fields(a) + Fields(b)
    decreases |a|, 1
  {
    var s := a + [c] + b;
    if a == [] {
      assert s == [c] + b && s[1..] == b;
      assert Fields(s) == Fields(b);
      assert Fields(a) + Fields(b) == Fields(b);
    } else if IsSpace(a[0]) {
      assert s[0] == a[0] && s[1..] == a[1..] + [c] + b;
      assert Fields(s) == Fields(a[1..] + [c] + b);
      FieldsSplit(a[1..], c, b);
    } else {
      FieldsSplitWord(a, c, b);
    }
  }

  /** `FieldsSplit` when `a` starts with a word: that word is the first field on both sides. */
  lemma {:induction false} FieldsSplitWord(a: string, c: char, b: string)
    requires IsSpace(c) && a != [] && !IsSpace(a[0])
    ensures Fields(a + [c] + b) == Fields(a) + Fields(b)
    decreases |a|, 0
  {
    var s := a + [c] + b;
    var n := WordLen(a);
    SplitAround(a, c, b, n);
    WordLenStops(a, [c] + b);
    assert Fields(s) == [a[..n]] + Fields(a[n..] + [c] + b);
    FieldsSplit(a[n..], c, b);
  }

  /** Cutting `a + [c] + b` inside `a`. */
  lemma SplitAround(a: string, c: char, b: string, n: nat)
    requires 0 < n <= |a|
    ensures a + [c] + b == a + ([c] + b)
    ensures (a + [c] + b)[0] == a[0]
    ensures (a + [c] + b)[..n] == a[..n] && (a + [c] + b)[n..] == a[n..] + [c] + b
  {
  }

  /** A single word is its own only field. */
  lemma {:induction false} FieldsOfWord(w: string)
    requires IsWord(w)
    ensures Fields(w) == [w]
  {
    WordIsOneRun(w);
    assert w[..|w|] == w;
  }

  lemma {:induction false} WordIsOneRun(w: string)
    requires forall i :: 0 <= i < |w| ==> !IsSpace(w[i])
    ensures WordLen(w) == |w|
    decreases |w|
  {
    if w != [] {
      WordIsOneRun(w[1..]);
    }
  }

  /** White space alone has no fields. */
  lemma {:induction false} FieldsOfSpace(z: string)
    requires AllSpace(z)
    ensures Fields(z) == []
    decreases |z|
  {
    if z != [] {
      FieldsOfSpace(z[1..]);
    }
  }

  /** `strings.TrimSpace`: `s` without its leading and trailing white space. */
  function TrimSpace(s: string): (r: string)
    ensures |r| <= |s|
    ensures r == [] || (!IsSpace(r[0]) && !IsSpace(r[|r| - 1]))
  {
    TrimRight(TrimLeft(s))
  }

  /** What `TrimSpace` removes is white space, from both ends only. */
  lemma TrimSpaceIsSlice(s: string)
    ensures exists i, j :: 0 <= i <= j <= |s| && TrimSpace(s) == s[i..j] && AllSpace(s[..i]) && AllSpace(s[j..])
  {
    var l := TrimLeft(s);
    var i := |s| - |l|;
    SliceOfSuffix(s, i, |TrimRight(l)|);
  }

  /** A prefix of the suffix of `s` from `i` is a slice of `s`, and what follows it is a suffix of `s`. */
  lemma SliceOfSuffix(s: string, i: nat, k: nat)
    requires i + k <= |s|
    ensures s[i..][..k] == s[i..i + k] && s[i..][k..] == s[i + k..]
  {
  }

  function TrimLeft(s: string): (r: string)
    ensures |r| <= |s| && r == s[|s| - |r|..] && AllSpace(s[..|s| - |r|])
    ensures r == [] || !IsSpace(r[0])
  {
    if s != [] && IsSpace(s[0]) then TrimLeft(s[1..]) else s
  }

  function TrimRight(s: string): (r: string)
    ensures |r| <= |s| && r == s[..|r|] && AllSpace(s[|r|..])
    ensures r == [] || !IsSpace(r[|r| - 1])
  {
    if s != [] && IsSpace(s[|s| - 1]) then TrimRight(s[..|s| - 1]) else s
  }

  /** Trimming never changes the fields. */
  lemma {:induction false} FieldsOfTrimSpace(s: string)
    ensures Fields(TrimSpace(s)) == Fields(s)
  {
    FieldsOfTrimLeft(s);
    FieldsOfTrimRight(TrimLeft(s));
  }

  lemma {:induction false} FieldsOfTrimLeft(s: string)
    ensures Fields(TrimLeft(s)) == Fields(s)
    decreases |s|
  {
    if s != [] && IsSpace(s[0]) {
      FieldsOfTrimLeft(s[1..]);
    }
  }

  lemma {:induction false} FieldsOfTrimRight(s: string)
    ensures Fields(TrimRight(s)) == Fields(s)
    decreases |s|
  {
    if s != [] && IsSpace(s[|s| - 1]) {
      var t := s[..|s| - 1];
      assert s == t + [s[|s| - 1]] + [];
      FieldsSplit(t, s[|s| - 1], []);
      assert Fields(t) + [] == Fields(t);
      FieldsOfTrimRight(t);
    }
  }

  // --------------------------------------------------------------- lines

  /** Index of the last '\n' in `s`, or -1. */
  function LastNewline(s: string): (i: int)
    ensures -1 <= i < |s|
    ensures i >= 0 ==> s[i] == '\n'
    ensures forall k :: i < k < |s| ==> s[k] != '\n'
  {
    if s == [] then -1
    else if s[|s| - 1] == '\n' then |s| - 1
    else LastNewline(s[..|s| - 1])
  }

  /** `strings.Split(s, "\n")`: the pieces between newlines, at least one. */
  function Lines(s: string): (ls: seq<string>)
    ensures |ls| >= 1
    ensures forall k :: 0 <= k < |ls| ==> '\n' !in ls[k]
    decreases |s|
  {
    var i := LastNewline(s);
    if i < 0 then [s] else Lines(s[..i]) + [s[i + 1..]]
  }

  /** The last newline of `a + "\n" + b`, when `b` has none, is the one added. */
  lemma {:induction false} LastNewlineAppend(a: string, b: string)
    requires '\n' !in b
    ensures LastNewline(a + "\n" + b) == |a|
    decreases |b|
  {
    var s := a + "\n" + b;
    if b == [] {
      assert s[|s| - 1] == '\n';
    } else {
      assert s[|s| - 1] == b[|b| - 1];
      assert s[..|s| - 1] == a + "\n" + b[..|b| - 1];
      LastNewlineAppend(a, b[..|b| - 1]);
    }
  }

  /** Appending a newline and a newline-free piece appends one line. */
  lemma LinesAppend(a: string, b: string)
    requires '\n' !in b
    ensures Lines(a + "\n" + b) == Lines(a) + [b]
  {
    var s := a + "\n" + b;
    LastNewlineAppend(a, b);
    assert s[..|a|] == a && s[|a| + 1..] == b;
  }

  // ---------------------------------------------------------- byte count

  /** Bytes of the UTF-8 encoding of one character. */
  function Utf8Width(c: char): (n: nat)
    ensures 1 <= n <= 4
  {
    if c as int < 0x80 then 1
    else if c as int < 0x800 then 2
    else if c as int < 0x1_0000 then 3
    else 4
  }

  /** Go's `len` of a string: its UTF-8 byte count. */
  function ByteLen(s: string): (n: nat)
    ensures |s| <= n <= 4 * |s|
  {
    if s == [] then 0 else ByteLen(s[..|s| - 1]) + Utf8Width(s[|s| - 1])
  }

  /** Byte counts add up over concatenation. */
  lemma {:induction false} ByteLenConcat(a: string, b: string)
    ensures ByteLen(a + b) == ByteLen(a) + ByteLen(b)
    decreases |b|
  {
    if b != [] {
      assert (a + b)[..|a + b| - 1] == a + b[..|b| - 1];
      ByteLenConcat(a, b[..|b| - 1]);
    } else {
      assert a + b == a;
    }
  }

  /** Text outside the Basic Multilingual Plane takes four bytes per character. */
  lemma {:induction false} ByteLenAstral(s: string)
    requires forall i :: 0 <= i < |s| ==> s[i] as int >= 0x1_0000
    ensures ByteLen(s) == 4 * |s|
    decreases |s|
  {
    if s != [] {
      ByteLenAstral(s[..|s| - 1]);
    }
  }

  /** ASCII text has as many bytes as characters. */
  lemma {:induction false} ByteLenAscii(s: string)
    requires forall i :: 0 <= i < |s| ==> s[i] as int < 0x80
    ensures ByteLen(s) == |s|
    decreases |s|
  {
    if s != [] {
      ByteLenAscii(s[..|s| - 1]);
    }
  }
}
