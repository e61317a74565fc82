/**
 * The greedy word wrapper of helper_unix.go (`wrap`), which formats the
 * help texts of the error-number table, and what its output looks like.
 */
module Wrapping {
  import opened Text

  /** The words of one output line, joined by single spaces. */
  function JoinWords(line: seq<string>): (s: string)
    requires |line| >= 1
  {
    if |line| == 1 then line[0] else JoinWords(line[..|line| - 1]) + " " + line[|line| - 1]
  }

  predicate NonEmptyLines(lines: seq<seq<string>>) {
    |lines| >= 1 && forall k :: 0 <= k < |lines| ==> |lines[k]| >= 1
  }

  /** The output text of a layout: its lines joined by '\n'. */
  function Render(lines: seq<seq<string>>): (s: string)
    requires NonEmptyLines(lines)
  {
    if |lines| == 1 then JoinWords(lines[0])
    else Render(lines[..|lines| - 1]) + "\n" + JoinWords(lines[|lines| - 1])
  }

  /** The words of a layout, line after line. */
  function Flatten(lines: seq<seq<string>>): seq<string> {
    if lines == [] then [] else Flatten(lines[..|lines| - 1]) + lines[|lines| - 1]
  }

  /** Width of a line in bytes, as Go's `len` counts it. */
  function LineWidth(line: seq<string>): int
    requires |line| >= 1
  {
    ByteLen(JoinWords(line))
  }

  /** Every line of two or more words fits `width` bytes. */
  predicate Fits(lines: seq<seq<string>>, width: int)
    requires NonEmptyLines(lines)
  {
    forall k :: 0 <= k < |lines| && |lines[k]| >= 2 ==> LineWidth(lines[k]) <= width
  }

  /** No line could have taken the first word of the next one. */
  predicate Maximal(lines: seq<seq<string>>, width: int)
    requires NonEmptyLines(lines)
  {
    forall k :: 0 <= k < |lines| - 1 ==> LineWidth(lines[k]) + 1 + ByteLen(lines[k + 1][0]) > width
  }

  /**
   * One step of the greedy layout: `w` goes on the last line when it fits
   * in the space left there (one byte for the separating space plus its
   * own bytes), and starts a new line otherwise.
   */
  function Place(ls: seq<seq<string>>, w: string, width: int): (next: seq<seq<string>>)
    requires NonEmptyLines(ls)
    ensures NonEmptyLines(next)
  {
    var last := ls[|ls| - 1];
    if ByteLen(w) + 1 > width - LineWidth(last) then ls + [[w]]
    else ls[..|ls| - 1] + [last + [w]]
  }

  /** The greedy layout of the first `n` words: the first word opens the first line, and each later word is placed in turn. */
  function Greedy(words: seq<string>, n: nat, width: int): (lines: seq<seq<string>>)
    requires 1 <= n <= |words|
    ensures NonEmptyLines(lines)
  {
    if n == 1 then [[words[0]]]
    else Place(Greedy(words, n - 1, width), words[n - 1], width)
  }

  /** The greedy layout of the first `n` words keeps them all, in order. */
  lemma {:induction false} GreedyWords(words: seq<string>, n: nat, width: int)
    requires 1 <= n <= |words|
    ensures Flatten(Greedy(words, n, width)) == words[..n]
  {
    if n == 1 {
      FirstLine(words[0]);
      TakeOneMore(words, 0);
    } else {
      var ls := Greedy(words, n - 1, width);
      GreedyWords(words, n - 1, width);
      PlaceWords(ls, words[n - 1], width);
      TakeOneMore(words, n - 1);
    }
  }

  /**
   * In the greedy layout of the first `n` words, a line of two or more
   * words fits `width`, and no word that starts a line would have fitted
   * on the line before.
   */
  lemma {:induction false} GreedyLayout(words: seq<string>, n: nat, width: int)
    requires 1 <= n <= |words|
    ensures Fits(Greedy(words, n, width), width) && Maximal(Greedy(words, n, width), width)
  {
    if n > 1 {
      GreedyLayout(words, n - 1, width);
      PlaceKeepsLayout(Greedy(words, n - 1, width), words[n - 1], width);
    }
  }

  /** A single word on a single line. */
  lemma FirstLine(w: string)
    ensures Flatten([[w]]) == [w]
  {
    assert [[w]][..0] == [];
  }

  /** Extending a prefix by the next element. */
  lemma TakeOneMore<T>(s: seq<T>, i: nat)
    requires i < |s|
    ensures s[..i] + [s[i]] == s[..i + 1]
  {
  }

  /** Placing one more word appends it to the words of a layout. */
  lemma PlaceWords(ls: seq<seq<string>>, w: string, width: int)
    requires NonEmptyLines(ls)
    ensures Flatten(Place(ls, w, width)) == Flatten(ls) + [w]
  {
    if ByteLen(w) + 1 > width - LineWidth(ls[|ls| - 1]) {
      NewLine(ls, w);
    } else {
      GrowLastLine(ls, w);
    }
  }

  /** Placing one more word keeps a layout fitting and maximal. */
  lemma PlaceKeepsLayout(ls: seq<seq<string>>, w: string, width: int)
    requires NonEmptyLines(ls) && Fits(ls, width) && Maximal(ls, width)
    ensures Fits(Place(ls, w, width), width) && Maximal(Place(ls, w, width), width)
  {
    if ByteLen(w) + 1 > width - LineWidth(ls[|ls| - 1]) {
      NewLineKeepsLayout(ls, w, width);
    } else {
      GrowLastLineKeepsLayout(ls, w, width);
    }
  }

  /** A word that does not fit the space left starts a new line: the text gains a newline and the word. */
  lemma PlaceBreak(ls: seq<seq<string>>, w: string, width: int)
    requires NonEmptyLines(ls) && ByteLen(w) + 1 > width - LineWidth(ls[|ls| - 1])
    ensures var next := Place(ls, w, width);
      Render(next) == Render(ls) + "\n" + w && LineWidth(next[|next| - 1]) == ByteLen(w)
  {
    NewLine(ls, w);
  }

  /** A word that fits the space left joins the last line: the text gains a space and the word. */
  lemma PlaceJoin(ls: seq<seq<string>>, w: string, width: int)
    requires NonEmptyLines(ls) && ByteLen(w) + 1 <= width - LineWidth(ls[|ls| - 1])
    ensures var next := Place(ls, w, width);
      && Render(next) == Render(ls) + " " + w
      && LineWidth(next[|next| - 1]) == LineWidth(ls[|ls| - 1]) + 1 + ByteLen(w)
  {
    GrowLastLine(ls, w);
  }

  /** A word added to a line adds a space and the word to its text, and their bytes to its width. */
  lemma GrowLine(last: seq<string>, w: string)
    requires |last| >= 1
    ensures JoinWords(last + [w]) == JoinWords(last) + " " + w
    ensures LineWidth(last + [w]) == LineWidth(last) + 1 + ByteLen(w)
  {
    assert (last + [w])[..|last|] == last;
    ByteLenConcat(JoinWords(last), " ");
    ByteLenConcat(JoinWords(last) + " ", w);
  }

  /** Putting `w` on the last line adds a space and `w` to that line and to the text. */
  lemma GrowLastLine(ls: seq<seq<string>>, w: string)
    requires NonEmptyLines(ls)
    ensures var last, grown := ls[|ls| - 1], ls[..|ls| - 1] + [ls[|ls| - 1] + [w]];
      && NonEmptyLines(grown)
      && LineWidth(last + [w]) == LineWidth(last) + 1 + ByteLen(w)
      && Flatten(grown) == Flatten(ls) + [w]
      && Render(grown) == Render(ls) + " " + w
  {
    var last := ls[|ls| - 1];
    var grown := ls[..|ls| - 1] + [last + [w]];
    GrowLine(last, w);
    assert grown[..|ls| - 1] == ls[..|ls| - 1] && grown[|ls| - 1] == last + [w];
    assert Flatten(ls) == Flatten(ls[..|ls| - 1]) + last;
  }

  /** A word that fits on the last line keeps the layout fitting and maximal. */
  lemma GrowLastLineKeepsLayout(ls: seq<seq<string>>, w: string, width: int)
    requires NonEmptyLines(ls) && Fits(ls, width) && Maximal(ls, width)
    requires LineWidth(ls[|ls| - 1]) + 1 + ByteLen(w) <= width
    ensures var grown := ls[..|ls| - 1] + [ls[|ls| - 1] + [w]];
      NonEmptyLines(grown) && Fits(grown, width) && Maximal(grown, width)
  {
    var last := ls[|ls| - 1];
    var grown := ls[..|ls| - 1] + [last + [w]];
    GrowLine(last, w);
    assert forall k :: 0 <= k < |ls| - 1 ==> grown[k] == ls[k];
    assert grown[|ls| - 1][0] == last[0];
  }

  /** Starting a new line with `w` adds a newline and `w` to the text. */
  lemma NewLine(ls: seq<seq<string>>, w: string)
    requires NonEmptyLines(ls)
    ensures var next := ls + [[w]];
      && NonEmptyLines(next)
      && Flatten(next) == Flatten(ls) + [w]
      && Render(next) == Render(ls) + "\n" + w
      && LineWidth(next[|next| - 1]) == ByteLen(w)
  {
    var next := ls + [[w]];
    assert next[..|ls|] == ls;
    assert JoinWords([w]) == w;
  }

  /** A word that does not fit on the last line keeps the layout fitting and maximal when it starts a new one. */
  lemma NewLineKeepsLayout(ls: seq<seq<string>>, w: string, width: int)
    requires NonEmptyLines(ls) && Fits(ls, width) && Maximal(ls, width)
    requires LineWidth(ls[|ls| - 1]) + 1 + ByteLen(w) > width
    ensures var next := ls + [[w]];
      NonEmptyLines(next) && Fits(next, width) && Maximal(next, width)
  {
    var next := ls + [[w]];
    assert forall k :: 0 <= k < |ls| ==> next[k] == ls[k];
  }

  /** What `wrap(text, width)` returns: `text` itself when it has no word, else the greedy layout. */
  function Wrapped(text: string, width: int): (r: string)
  {
    var words := Fields(text);
    if words == [] then text else Render(Greedy(words, |words|, width))
  }

  /**
   * `wrap`: the words of the trimmed text are laid out by `WrapWords`; a
   * text without words comes back unchanged.
   */
  method Wrap(text: string, lineWidth: int) returns (wrapped: string)
    ensures wrapped == Wrapped(text, lineWidth)
  {
    var words := Fields(TrimSpace(text));
    FieldsOfTrimSpace(text);
    if |words| == 0 {
      return text;
    }
    wrapped := WrapWords(words, lineWidth);
  }

  /**
   * The loop of `wrap`: the first word opens the text; each later word is
   * appended after a newline when it does not fit the space left on the
   * current line, after a space otherwise, and the space left is updated.
   */
  method WrapWords(words: seq<string>, lineWidth: int) returns (wrapped: string)
    requires |words| >= 1
    ensures wrapped == Render(Greedy(words, |words|, lineWidth))
  {
    wrapped := words[0];
    var spaceLeft := lineWidth - ByteLen(wrapped);
    ghost var ls: seq<seq<string>> := [[words[0]]];
    for i := 1 to |words|
      invariant NonEmptyLines(ls) && ls == Greedy(words, i, lineWidth)
      invariant wrapped == Render(ls)
      invariant spaceLeft == lineWidth - LineWidth(ls[|ls| - 1])
    {
      var word := words[i];
      if ByteLen(word) + 1 > spaceLeft {
        PlaceBreak(ls, word, lineWidth);
        wrapped := wrapped + "\n" + word;
        spaceLeft := lineWidth - ByteLen(word);
      } else {
        PlaceJoin(ls, word, lineWidth);
        wrapped := wrapped + " " + word;
        spaceLeft := spaceLeft - (1 + ByteLen(word));
      }
      ls := Place(ls, word, lineWidth);
    }
  }

  // ------------------------------------------------- the text `wrap` makes

  predicate WordsOnly(ws: seq<string>) {
    forall i :: 0 <= i < |ws| ==> IsWord(ws[i])
  }

  /**
   * `s` is words separated by single characters: it starts and ends with a
   * word character, and every white-space character in it is a ' ' or a
   * '\n' followed by a word character.
   */
  predicate SingleSeparated(s: string) {
    && |s| > 0 && !IsSpace(s[0]) && !IsSpace(s[|s| - 1])
    && forall i :: 0 <= i < |s| && IsSpace(s[i]) ==> (s[i] == ' ' || s[i] == '\n') && i + 1 < |s| && !IsSpace(s[i + 1])
  }

  lemma SeparatedAppend(a: string, c: char, w: string)
    requires SingleSeparated(a) && (c == ' ' || c == '\n') && IsWord(w)
    ensures SingleSeparated(a + [c] + w)
  {
    var s := a + [c] + w;
    forall i | 0 <= i < |s| && IsSpace(s[i])
      ensures (s[i] == ' ' || s[i] == '\n') && i + 1 < |s| && !IsSpace(s[i + 1])
    {
      if i < |a| {
        assert s[i] == a[i];
        if i + 1 < |a| {
          assert s[i + 1] == a[i + 1];
        }
      } else {
        assert i == |a| && s[i + 1] == w[0];
      }
    }
  }

  /** A single line of words: its fields are its words, it has no newline, and it is single-separated. */
  lemma {:induction false} JoinedLine(line: seq<string>)
    requires |line| >= 1 && WordsOnly(line)
    ensures Fields(JoinWords(line)) == line
    ensures '\n' !in JoinWords(line) && SingleSeparated(JoinWords(line))
    ensures IsWord(JoinWords(line)) <==> |line| == 1
    decreases |line|
  {
    var j := JoinWords(line);
    if |line| == 1 {
      FieldsOfWord(line[0]);
    } else {
      var init, w := line[..|line| - 1], line[|line| - 1];
      JoinedLine(init);
      assert j == JoinWords(init) + [' '] + w;
      FieldsSplit(JoinWords(init), ' ', w);
      FieldsOfWord(w);
      assert line == init + [w];
      SeparatedAppend(JoinWords(init), ' ', w);
      assert j[|JoinWords(init)|] == ' ';
    }
  }

  /** A line of words has no newline. */
  lemma LineHasNoNewline(line: seq<string>)
    requires |line| >= 1 && WordsOnly(line)
    ensures '\n' !in JoinWords(line)
  {
    JoinedLine(line);
  }

  /** The words of a rendered layout are the layout's words, and it is single-separated. */
  lemma {:induction false} RenderedText(lines: seq<seq<string>>)
    requires NonEmptyLines(lines) && WordsOnly(Flatten(lines))
    ensures Fields(Render(lines)) == Flatten(lines) && SingleSeparated(Render(lines))
    decreases |lines|
  {
    var n := |lines|;
    var init := lines[..n - 1];
    LastLineWords(lines);
    JoinedLine(lines[n - 1]);
    if n == 1 {
      assert Flatten(lines) == Flatten(init) + lines[0] && Flatten(init) == [];
    } else {
      InitLinesWords(lines);
      RenderedText(init);
      var r, j := Render(init), JoinWords(lines[n - 1]);
      assert Render(lines) == r + ['\n'] + j;
      FieldsSplit(r, '\n', j);
      SeparatedAppendLine(r, j);
    }
  }

  /** Splitting a rendered layout at its newlines gives back its lines, each joined by spaces. */
  lemma {:induction false} RenderedLines(lines: seq<seq<string>>)
    requires NonEmptyLines(lines) && WordsOnly(Flatten(lines))
    ensures |Lines(Render(lines))| == |lines|
    ensures forall k :: 0 <= k < |lines| ==> Lines(Render(lines))[k] == JoinWords(lines[k])
    decreases |lines|
  {
    var n := |lines|;
    var init := lines[..n - 1];
    LastLineWords(lines);
    LineHasNoNewline(lines[n - 1]);
    var j := JoinWords(lines[n - 1]);
    if n == 1 {
      assert LastNewline(j) == -1;
    } else {
      InitLinesWords(lines);
      RenderedLines(init);
      var r := Render(init);
      assert Render(lines) == r + "\n" + j;
      LinesAppend(r, j);
      var ls := Lines(Render(lines));
      forall k | 0 <= k < n
        ensures ls[k] == JoinWords(lines[k])
      {
        if k < n - 1 {
          assert ls[k] == Lines(r)[k] && init[k] == lines[k];
        }
      }
    }
  }

  lemma LastLineWords(lines: seq<seq<string>>)
    requires |lines| >= 1 && WordsOnly(Flatten(lines))
    ensures WordsOnly(lines[|lines| - 1])
  {
    var n := |lines|;
    var init, last := lines[..n - 1], lines[n - 1];
    assert Flatten(lines) == Flatten(init) + last;
    forall i | 0 <= i < |last| ensures IsWord(last[i]) {
      assert last[i] == Flatten(lines)[|Flatten(init)| + i];
    }
  }

  lemma InitLinesWords(lines: seq<seq<string>>)
    requires |lines| >= 1 && WordsOnly(Flatten(lines))
    ensures WordsOnly(Flatten(lines[..|lines| - 1]))
  {
    var n := |lines|;
    var init := lines[..n - 1];
    assert Flatten(lines) == Flatten(init) + lines[n - 1];
    forall i | 0 <= i < |Flatten(init)| ensures IsWord(Flatten(init)[i]) {
      assert Flatten(init)[i] == Flatten(lines)[i];
    }
  }

  lemma SeparatedAppendLine(a: string, b: string)
    requires SingleSeparated(a) && SingleSeparated(b)
    ensures SingleSeparated(a + ['\n'] + b)
  {
    var s := a + ['\n'] + b;
    forall i | 0 <= i < |s| && IsSpace(s[i])
      ensures (s[i] == ' ' || s[i] == '\n') && i + 1 < |s| && !IsSpace(s[i + 1])
    {
      if i < |a| {
        assert s[i] == a[i];
        if i + 1 < |a| {
          assert s[i + 1] == a[i + 1];
        }
      } else if i == |a| {
        assert s[i + 1] == b[0];
      } else {
        assert s[i] == b[i - |a| - 1];
        assert s[i + 1] == b[i - |a|];
      }
    }
  }

  /**
   * The lines of a rendered greedy layout, read back from the text: each
   * fits `width` bytes unless it is a single word, and each but the last
   * is too long to take the first word of the next.
   */
  lemma {:induction false} RenderedLayout(lines: seq<seq<string>>, width: int)
    requires NonEmptyLines(lines) && WordsOnly(Flatten(lines))
    requires Fits(lines, width) && Maximal(lines, width)
    ensures var ls := Lines(Render(lines));
      && (forall k :: 0 <= k < |ls| ==> ByteLen(ls[k]) <= width || IsWord(ls[k]))
      && (forall k :: 1 <= k < |ls| ==> Fields(ls[k]) != [] && ByteLen(ls[k - 1]) + 1 + ByteLen(Fields(ls[k])[0]) > width)
  {
    RenderedLines(lines);
    var ls := Lines(Render(lines));
    forall k | 0 <= k < |ls|
      ensures ls[k] == JoinWords(lines[k]) && Fields(ls[k]) == lines[k]
      ensures ByteLen(ls[k]) <= width || IsWord(ls[k])
    {
      LineWords(lines, k);
      JoinedLine(lines[k]);
    }
    forall k | 1 <= k < |ls|
      ensures Fields(ls[k]) != [] && ByteLen(ls[k - 1]) + 1 + ByteLen(Fields(ls[k])[0]) > width
    {
      assert lines[k - 1 + 1] == lines[k];
      assert LineWidth(lines[k - 1]) + 1 + ByteLen(lines[k - 1 + 1][0]) > width;
    }
  }

  /**
   * What `wrap` promises about its output. A text without words comes back
   * unchanged. Otherwise the output has exactly the text's words, in
   * order, separated by single spaces or newlines, with no white space at
   * either end; each output line fits `width` bytes unless it is a single
   * word; and each line but the last is too long to take the first word
   * of the next line.
   */
  lemma WrappedText(text: string, width: int)
    ensures Fields(text) == [] ==> Wrapped(text, width) == text
    ensures var r := Wrapped(text, width);
      Fields(text) != [] ==>
        && Fields(r) == Fields(text) && SingleSeparated(r)
        && (forall k :: 0 <= k < |Lines(r)| ==> ByteLen(Lines(r)[k]) <= width || IsWord(Lines(r)[k]))
        && (forall k :: 1 <= k < |Lines(r)| ==>
              Fields(Lines(r)[k]) != [] && ByteLen(Lines(r)[k - 1]) + 1 + ByteLen(Fields(Lines(r)[k])[0]) > width)
  {
    var words := Fields(text);
    if words != [] {
      var lines := Greedy(words, |words|, width);
      GreedyWords(words, |words|, width);
      GreedyLayout(words, |words|, width);
      assert words[..|words|] == words;
      RenderedText(lines);
      RenderedLayout(lines, width);
    }
  }

  /** Each line of a layout whose words are all words holds only words. */
  lemma {:induction false} LineWords(lines: seq<seq<string>>, k: nat)
    requires WordsOnly(Flatten(lines)) && k < |lines|
    ensures WordsOnly(lines[k])
    decreases |lines|
  {
    if k == |lines| - 1 {
      LastLineWords(lines);
    } else {
      InitLinesWords(lines);
      LineWords(lines[..|lines| - 1], k);
    }
  }
}
