/**
  * Two readers of plain text, used to state what the PPM writer produces:
  * `Words` splits at blanks the way a P3 reader does (a space or a line feed
  * separates values), and `Lines` splits at line feeds the way Rust's
  * `str::lines` does (a final line feed does not open an empty line).
  * `FitsLines` is a third, character-by-character view of the line lengths.
  */
module Text {

  predicate IsBlank(ch: char) {
    ch == ' ' || ch == '\n'
  }

  predicate NoNewline(s: string) {
    forall i :: 0 <= i < |s| ==> s[i] != '\n'
  }

  predicate NoBlank(s: string) {
    forall i :: 0 <= i < |s| ==> !IsBlank(s[i])
  }

  // ---------------------------------------------------------------- words

  /** Length of the run of non-blank characters that starts `s`. */
  function WordLen(s: string): (n: nat)
    ensures n <= |s|
  {
    if s == [] || IsBlank(s[0]) then 0 else 1 + WordLen(s[1..])
  }

  /** The run `WordLen` measures is blank-free and ends at a blank or at the end. */
  lemma {:induction false} WordLenSpec(s: string)
    ensures forall i :: 0 <= i < WordLen(s) ==> !IsBlank(s[i])
    ensures WordLen(s) < |s| ==> IsBlank(s[WordLen(s)])
    decreases |s|
  {
    if s != [] && !IsBlank(s[0]) {
      WordLenSpec(s[1..]);
    }
  }

  /** The maximal non-blank runs of `s`, in order. */
  function Words(s: string): seq<string>
    decreases |s|
  {
    if s == [] then []
    else if IsBlank(s[0]) then Words(s[1..])
    else
      var n := WordLen(s);
      [s[..n]] + Words(s[n..])
  }

  /** A blank-free, non-empty string is one word. */
  lemma WordsOfWord(w: string)
    requires w != [] && NoBlank(w)
    ensures Words(w) == [w]
  {
    WordLenSpec(w);
    assert WordLen(w) == |w|;
    assert w[..|w|] == w;
    assert w[|w|..] == [];
  }

  /** Leading blanks do not contribute words. */
  lemma WordsAfterBlank(ch: char, s: string)
    requires IsBlank(ch)
    ensures Words([ch] + s) == Words(s)
  {
    assert ([ch] + s)[1..] == s;
  }

  lemma {:induction false} WordLenAppend(a: string, b: string)
    requires WordLen(a) < |a| || b == [] || IsBlank(b[0])
    ensures WordLen(a + b) == WordLen(a)
    decreases |a|
  {
    if a == [] {
      assert a + b == b;
    } else if !IsBlank(a[0]) {
      assert (a + b)[1..] == a[1..] + b;
      WordLenAppend(a[1..], b);
    }
  }

  /** A word ends no later than a blank that ends the text. */
  lemma WordLenBeforeBlank(a: string)
    requires a != [] && IsBlank(a[|a| - 1])
    ensures WordLen(a) < |a|
  {
    WordLenSpec(a);
  }

  /** Splitting at a blank boundary: the words of `a + b` are those of `a`
      followed by those of `b` when a blank stands where they meet. */
  lemma {:induction false} WordsAppend(a: string, b: string)
    requires a == [] || b == [] || IsBlank(a[|a| - 1]) || IsBlank(b[0])
    ensures Words(a + b) == Words(a) + Words(b)
    decreases |a|, 1
  {
    if a == [] {
      assert a + b == b;
    } else if IsBlank(a[0]) {
      assert (a + b)[1..] == a[1..] + b;
      WordsAppend(a[1..], b);
    } else {
      WordsAppendWord(a, b);
    }
  }

  /** The case of `WordsAppend` where `a` starts with a word. */
  lemma {:induction false} WordsAppendWord(a: string, b: string)
    requires a != [] && !IsBlank(a[0])
    requires b == [] || IsBlank(a[|a| - 1]) || IsBlank(b[0])
    ensures Words(a + b) == Words(a) + Words(b)
    decreases |a|, 0
  {
    var n := WordLen(a);
    if IsBlank(a[|a| - 1]) {
      WordLenBeforeBlank(a);
    }
    WordLenAppend(a, b);
    assert (a + b)[..n] == a[..n];
    assert (a + b)[n..] == a[n..] + b;
    if n < |a| {
      WordsAppend(a[n..], b);
    } else {
      assert a[n..] + b == b;
    }
  }

  /** A word followed by a blank is the first word. */
  lemma WordsCons(w: string, sep: char, rest: string)
    requires w != [] && NoBlank(w) && IsBlank(sep)
    ensures Words(w + [sep] + rest) == [w] + Words(rest)
  {
    WordsOfWord(w);
    assert w + [sep] + rest == w + ([sep] + rest);
    WordsAppend(w, [sep] + rest);
    WordsAfterBlank(sep, rest);
  }

  // ---------------------------------------------------------------- lines

  /** Length of the first line of `s`, without its line feed. */
  function LineLen(s: string): (n: nat)
    ensures n <= |s|
  {
    if s == [] || s[0] == '\n' then 0 else 1 + LineLen(s[1..])
  }

  /** The first line is line-feed-free and ends at a line feed or at the end. */
  lemma {:induction false} LineLenSpec(s: string)
    ensures forall i :: 0 <= i < LineLen(s) ==> s[i] != '\n'
    ensures LineLen(s) < |s| ==> s[LineLen(s)] == '\n'
    decreases |s|
  {
    if s != [] && s[0] != '\n' {
      LineLenSpec(s[1..]);
    }
  }

  /** A line-feed-free prefix adds its length to the first line. */
  lemma {:induction false} LineLenPrefix(a: string, b: string)
    requires NoNewline(a)
    ensures LineLen(a + b) == |a| + LineLen(b)
    decreases |a|
  {
    if a == [] {
      assert a + b == b;
    } else {
      assert (a + b)[1..] == a[1..] + b;
      LineLenPrefix(a[1..], b);
    }
  }

  /** The lines of `s`: Rust's `str::lines` for text without carriage returns. */
  function Lines(s: string): seq<string>
    decreases |s|
  {
    if s == [] then []
    else
      var n := LineLen(s);
      [s[..n]] + (if n < |s| then Lines(s[n + 1..]) else [])
  }

  /** A line-feed-free prefix ended by a line feed is the first line. */
  lemma LinesCons(a: string, b: string)
    requires NoNewline(a)
    ensures Lines(a + "\n" + b) == [a] + Lines(b)
  {
    var s := a + "\n" + b;
    assert s == a + ("\n" + b);
    LineLenPrefix(a, "\n" + b);
    assert LineLen(s) == |a|;
    assert s[..|a|] == a;
    assert s[|a| + 1..] == b;
  }

  /** Three line-feed-free lines, each ended by a line feed, then the rest. */
  lemma LinesThree(a: string, b: string, c: string, rest: string)
    requires NoNewline(a) && NoNewline(b) && NoNewline(c)
    ensures Lines(a + "\n" + (b + "\n" + (c + "\n" + rest))) == [a, b, c] + Lines(rest)
  {
    LinesCons(c, rest);
    LinesCons(b, c + "\n" + rest);
    LinesCons(a, b + "\n" + (c + "\n" + rest));
  }

  /** A non-empty, line-feed-free text is one line. */
  lemma LinesOfLine(a: string)
    requires a != [] && NoNewline(a)
    ensures Lines(a) == [a]
  {
    LineLenPrefix(a, "");
    assert a + "" == a;
    assert a[..|a|] == a;
  }

  /** A final line feed does not add a line. */
  lemma {:induction false} LinesTerminated(s: string)
    requires s != [] && s[|s| - 1] != '\n'
    ensures Lines(s + "\n") == Lines(s)
    decreases |s|
  {
    var n := LineLen(s);
    LineLenSpec(s);
    if n == |s| {
      assert NoNewline(s);
      LinesCons(s, "");
      assert s + "\n" + "" == s + "\n";
      LinesOfLine(s);
    } else {
      var rest := s[n + 1..];
      assert s == s[..n] + "\n" + rest;
      assert rest != [] && rest[|rest| - 1] == s[|s| - 1];
      LinesCons(s[..n], rest + "\n");
      assert s + "\n" == s[..n] + "\n" + (rest + "\n");
      LinesCons(s[..n], rest);
      LinesTerminated(rest);
    }
  }

  // ---------------------------------------------------------------- columns

  /** Every line of `s` is at most `bound` characters long, when the first
      line already holds `col` characters: the column, counted character by
      character and reset by each line feed, never exceeds `bound`. */
  predicate FitsLines(s: string, col: nat, bound: nat)
    decreases |s|
  {
    col <= bound && (s == [] || FitsLines(s[1..], if s[0] == '\n' then 0 else col + 1, bound))
  }

  /** On a line-feed-free prefix the column grows by one per character. */
  lemma {:induction false} FitsLinesAppend(a: string, b: string, col: nat, bound: nat)
    requires NoNewline(a)
    ensures FitsLines(a + b, col, bound) <==> col + |a| <= bound && FitsLines(b, col + |a|, bound)
    decreases |a|
  {
    if a == [] {
      assert a + b == b;
    } else {
      assert (a + b)[1..] == a[1..] + b;
      FitsLinesAppend(a[1..], b, col + 1, bound);
    }
  }

  /** A line feed resets the column. */
  lemma FitsLinesNewline(b: string, col: nat, bound: nat)
    ensures FitsLines("\n" + b, col, bound) <==> col <= bound && FitsLines(b, 0, bound)
  {
    assert ("\n" + b)[1..] == b;
  }

  /** The column view agrees with the line view: every line is within `bound`. */
  lemma {:induction false} FitsLinesBound(s: string, bound: nat)
    requires FitsLines(s, 0, bound)
    ensures forall k :: 0 <= k < |Lines(s)| ==> |Lines(s)[k]| <= bound
    decreases |s|
  {
    if s != [] {
      var n := LineLen(s);
      LineLenSpec(s);
      assert NoNewline(s[..n]);
      assert s == s[..n] + s[n..];
      FitsLinesAppend(s[..n], s[n..], 0, bound);
      if n < |s| {
        var rest := s[n + 1..];
        assert s[n..] == "\n" + rest;
        FitsLinesNewline(rest, n, bound);
        FitsLinesBound(rest, bound);
      }
    }
  }
}
