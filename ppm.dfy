/**
  * The plain-text "P3" image writer (`Ppm::stringify`): a three-line header,
  * then the colour tokens of the canvas in index order, separated by single
  * spaces or line feeds under a running column counter, then a final line
  * feed unless the text already ends with one.
  */
module Ppm {
  import opened Wrappers
  import opened Decimal
  import opened Text
  import opened Colors
  import opened Canvases
  import opened P3Reader

  /** The column threshold of the wrap rule: a token goes on a new line when
      the counter plus the token plus its separator would reach 69. */
  const LineLimit: nat := 69

  /** The longest pixel-data line the wrap rule lets through. */
  const MaxLine: nat := 67

  /** Which test decides, besides the 69 threshold, that a token starts a new
      line: `AsWritten` is the source's `counter > width * token length`;
      `RowAligned` starts every canvas row on a new line (see the findings). */
  datatype Wrap = AsWritten | RowAligned

  /** Whether token `i`, `len` characters long, is preceded by a line feed when
      the counter stands at `counter`. */
  predicate Breaks(rule: Wrap, width: nat, i: nat, counter: nat, len: nat) {
    match rule
    case AsWritten => counter > width * len || counter + len + 1 >= LineLimit
    case RowAligned => (0 < i && 0 < width && i % width == 0) || counter + len + 1 >= LineLimit
  }

  /** What precedes a token: a line feed when it breaks, otherwise a space
      unless the counter is zero (the first token of the data). */
  function Separator(rule: Wrap, width: nat, i: nat, counter: nat, len: nat): string {
    if Breaks(rule, width, i, counter, len) then "\n" else if counter != 0 then " " else ""
  }

  /** The counter after a token: reset by a line feed, then grown by the
      token's length plus one. */
  function Advance(rule: Wrap, width: nat, i: nat, counter: nat, len: nat): nat {
    (if Breaks(rule, width, i, counter, len) then 0 else counter) + len + 1
  }

  /** Tokens the wrap rule can lay out: each non-empty, without a line feed,
      and short enough to fit a line on its own. */
  predicate Printable(ts: seq<string>) {
    forall k :: 0 <= k < |ts| ==> 0 < |ts[k]| <= MaxLine && NoNewline(ts[k])
  }

  /** The token of each cell, in order. */
  function Tokens(cells: seq<Color>): (ts: seq<string>)
    ensures |ts| == |cells|
    ensures forall k :: 0 <= k < |cells| ==> ts[k] == ColorText(cells[k])
    ensures Printable(ts)
  {
    seq(|cells|, k requires 0 <= k < |cells| => ColorText(cells[k]))
  }

  /** A token is preceded by a line feed exactly when it breaks, by nothing
      exactly when it does not break and the counter is zero, and otherwise
      by one space. */
  lemma SeparatorShape(rule: Wrap, width: nat, i: nat, counter: nat, len: nat)
    ensures var s := Separator(rule, width, i, counter, len);
      (s == "\n" <==> Breaks(rule, width, i, counter, len)) &&
      (s == "" <==> !Breaks(rule, width, i, counter, len) && counter == 0) &&
      (s == " " || s == "\n" || s == "")
    ensures len < Advance(rule, width, i, counter, len)
  {
  }

  /** The pixel data written for tokens `i..` when the counter stands at
      `counter`: each token preceded by its separator. */
  function Emit(ts: seq<string>, i: nat, counter: nat, width: nat, rule: Wrap): string
    requires i <= |ts|
    decreases |ts| - i
  {
    if i == |ts| then ""
    else
      Separator(rule, width, i, counter, |ts[i]|) + ts[i]
        + Emit(ts, i + 1, Advance(rule, width, i, counter, |ts[i]|), width, rule)
  }

  /** The header `"P3\n{width} {height}\n{255}\n"`; the source formats the
      maximum value from the float 255.0, whose text is "255". */
  function HeaderText(width: nat, height: nat): string {
    "P3\n" + Digits(width) + " " + Digits(height) + "\n" + "255\n"
  }

  /** `s` with a line feed appended unless it already ends with one: the
      result ends with a line feed, extends `s` by at most that one
      character, and equals `s` when `s` already ended with a line feed. */
  function Terminated(s: string): (r: string)
    ensures |r| > 0 && r[|r| - 1] == '\n'
    ensures |s| <= |r| <= |s| + 1 && r[..|s|] == s
    ensures |s| > 0 && s[|s| - 1] == '\n' ==> r == s
  {
    if |s| > 0 && s[|s| - 1] == '\n' then s else s + "\n"
  }

  /** The whole text written for a `width` by `height` canvas holding `cells`. */
  function PpmText(width: nat, height: nat, cells: seq<Color>, rule: Wrap): (t: string)
    ensures |t| > 0 && t[|t| - 1] == '\n'
  {
    Terminated(HeaderText(width, height) + Emit(Tokens(cells), 0, 0, width, rule))
  }

  /** `Ppm`: the text of an image. */
  datatype Ppm = Ppm(text: string)

  /** `Ppm::header`: appends the header to `buffer`. */
  method Header(buffer: string, cv: Canvas) returns (r: string)
    ensures r == buffer + HeaderText(cv.width, cv.height)
  {
    r := buffer + ("P3\n" + Digits(cv.width) + " " + Digits(cv.height) + "\n" + "255\n");
  }

  /** `Ppm::serialize_colors`: appends the colour tokens of the canvas, in
      iteration order, with the source's wrap rule. */
  method SerializeColors(buffer: string, cv: Canvas) returns (r: string)
    requires cv.Valid()
    ensures r == buffer + Emit(Tokens(cv.Cells()), 0, 0, cv.width, AsWritten)
  {
    ghost var cells := cv.Cells();
    ghost var ts := Tokens(cells);
    r := buffer;
    var counter: nat := 0;
    var it := new CanvasIter(cv);
    while true
      invariant it.inner == cv && it.index <= |cells| && cv.Cells() == cells
      invariant r + Emit(ts, it.index, counter, cv.width, AsWritten)
             == buffer + Emit(ts, 0, 0, cv.width, AsWritten)
      decreases |cells| - it.index
    {
      ghost var i, c0, r0 := it.index, counter, r;
      var next := it.Next();
      if next.None? {
        break;
      }
      var rgb := ColorText(next.value);
      assert rgb == ts[i];
      var rgbLen := |rgb|;
      var wraps := counter > cv.width * rgbLen || counter + rgbLen + 1 >= 69;
      assert wraps == Breaks(AsWritten, cv.width, i, c0, rgbLen);
      ghost var sep := "";
      if wraps {
        r := r + "\n";
        counter := 0;
        sep := "\n";
      }
      if counter != 0 {
        r := r + " ";
        sep := " ";
      }
      assert r == r0 + sep;
      assert sep == Separator(AsWritten, cv.width, i, c0, rgbLen);
      counter := counter + rgbLen + 1;
      r := r + rgb;
      assert counter == Advance(AsWritten, cv.width, i, c0, rgbLen);
      EmitCons(ts, i, c0, cv.width, AsWritten);
      Regroup(r0, sep, rgb, Emit(ts, i + 1, counter, cv.width, AsWritten));
    }
  }

  lemma Regroup(a: string, b: string, c: string, d: string)
    ensures (a + b + c) + d == a + (b + (c + d))
  {
  }

  /** `Ppm::ends_with_new_line`. */
  method EndsWithNewLine(buffer: string) returns (r: string)
    ensures r == Terminated(buffer)
  {
    r := buffer;
    if !(|r| > 0 && r[|r| - 1] == '\n') {
      r := r + "\n";
    }
  }

  /** `Ppm::stringify` (what `Canvas::to_ppm` returns): header, pixel data,
      final line feed. The text starts with the header, ends with a line
      feed, and a P3 reader recovers from it the canvas's width, height and
      the bytes of every cell in row-major order. */
  method Stringify(cv: Canvas) returns (ppm: Ppm)
    requires cv.Valid()
    ensures ppm.text == PpmText(cv.width, cv.height, cv.Cells(), AsWritten)
    ensures |ppm.text| > 0 && ppm.text[|ppm.text| - 1] == '\n'
    ensures |HeaderText(cv.width, cv.height)| <= |ppm.text|
    ensures ppm.text[..|HeaderText(cv.width, cv.height)|] == HeaderText(cv.width, cv.height)
    ensures Decode(ppm.text) == Some(Image(cv.width, cv.height, Rgbs(cv.Cells())))
  {
    var buffer := "";
    buffer := Header(buffer, cv);
    assert buffer == HeaderText(cv.width, cv.height);
    buffer := SerializeColors(buffer, cv);
    buffer := EndsWithNewLine(buffer);
    ppm := Ppm(buffer);
    assert ppm.text == PpmText(cv.width, cv.height, cv.Cells(), AsWritten);
    assert Decode(ppm.text) == Some(Image(cv.width, cv.height, Rgbs(cv.Cells()))) by {
      DecodePpmText(cv.width, cv.height, cv.Cells(), AsWritten);
    }
    HeaderPrefix(cv.width, cv.height, cv.Cells(), AsWritten);
  }

  // ------------------------------------------------------------ properties

  /** The bytes of the cells, in order. */
  function Rgbs(cells: seq<Color>): (rgbs: seq<Rgb>)
    ensures |rgbs| == |cells|
    ensures forall k :: 0 <= k < |cells| ==> rgbs[k] == GetRgb(cells[k])
  {
    seq(|cells|, k requires 0 <= k < |cells| => GetRgb(cells[k]))
  }

  /** Tokens each preceded by one separator character. */
  function Spaced(ts: seq<string>, seps: seq<char>): string
    requires |seps| == |ts|
  {
    if ts == [] then "" else [seps[0]] + ts[0] + Spaced(ts[1..], seps[1..])
  }

  lemma Regroup3(a: string, b: string, c: string)
    ensures a + b + c == a + (b + c)
  {
  }

  /** One step of `Emit`: separator, token, rest. */
  lemma EmitCons(ts: seq<string>, i: nat, counter: nat, width: nat, rule: Wrap)
    requires i < |ts|
    ensures Emit(ts, i, counter, width, rule)
      == Separator(rule, width, i, counter, |ts[i]|)
         + (ts[i] + Emit(ts, i + 1, Advance(rule, width, i, counter, |ts[i]|), width, rule))
  {
    Regroup3(Separator(rule, width, i, counter, |ts[i]|), ts[i],
      Emit(ts, i + 1, Advance(rule, width, i, counter, |ts[i]|), width, rule));
  }

  /** The first token written is never preceded by anything. */
  lemma FirstTokenUnseparated(rule: Wrap, width: nat, len: nat)
    requires len <= MaxLine
    ensures !Breaks(rule, width, 0, 0, len) && Separator(rule, width, 0, 0, len) == ""
    ensures Advance(rule, width, 0, 0, len) == len + 1
  {
  }

  /** The first token is written with nothing before it. */
  lemma EmitFirst(ts: seq<string>, width: nat, rule: Wrap)
    requires ts != [] && |ts[0]| <= MaxLine
    ensures Emit(ts, 0, 0, width, rule) == ts[0] + Emit(ts, 1, |ts[0]| + 1, width, rule)
  {
    FirstTokenUnseparated(rule, width, |ts[0]|);
    EmitCons(ts, 0, 0, width, rule);
    assert "" + (ts[0] + Emit(ts, 1, |ts[0]| + 1, width, rule)) == ts[0] + Emit(ts, 1, |ts[0]| + 1, width, rule);
  }

  /** Once a token has been written the counter is positive, so every later
      token is preceded by exactly one blank. */
  lemma EmitStartsWithBlank(ts: seq<string>, i: nat, counter: nat, width: nat, rule: Wrap)
    requires i <= |ts| && 0 < counter
    ensures var e := Emit(ts, i, counter, width, rule); e == [] || IsBlank(e[0])
  {
  }

  /** The separator character written before each of the tokens `i..`. */
  function SeparatorChars(ts: seq<string>, i: nat, counter: nat, width: nat, rule: Wrap): (seps: seq<char>)
    requires i <= |ts|
    ensures |seps| == |ts| - i
    decreases |ts| - i
  {
    if i == |ts| then []
    else
      [if Breaks(rule, width, i, counter, |ts[i]|) then '\n' else ' ']
        + SeparatorChars(ts, i + 1, Advance(rule, width, i, counter, |ts[i]|), width, rule)
  }

  /** After the first token, the data is every later token preceded by
      exactly one separator, a space or a line feed: tokens are never split,
      never glued together, never separated twice. */
  lemma {:induction false} EmitSpaced(ts: seq<string>, i: nat, counter: nat, width: nat, rule: Wrap)
    requires i <= |ts| && 0 < counter
    ensures var seps := SeparatorChars(ts, i, counter, width, rule);
      (forall k :: 0 <= k < |seps| ==> IsBlank(seps[k])) &&
      Emit(ts, i, counter, width, rule) == Spaced(ts[i..], seps)
    decreases |ts| - i
  {
    var seps := SeparatorChars(ts, i, counter, width, rule);
    if i == |ts| {
      assert ts[i..] == [];
    } else {
      var c := Advance(rule, width, i, counter, |ts[i]|);
      var rest := SeparatorChars(ts, i + 1, c, width, rule);
      EmitSpaced(ts, i + 1, c, width, rule);
      assert Separator(rule, width, i, counter, |ts[i]|) == [seps[0]];
      assert seps[1..] == rest;
      assert ts[i..][0] == ts[i] && ts[i..][1..] == ts[i + 1..];
      assert Spaced(ts[i..], seps) == [seps[0]] + ts[i] + Spaced(ts[i + 1..], rest);
    }
  }

  /** The pixel data of a non-empty canvas is its first token followed by
      every later token, each after exactly one space or line feed. */
  lemma EmitLayout(ts: seq<string>, width: nat, rule: Wrap)
    requires ts != [] && |ts[0]| <= MaxLine
    ensures exists seps: seq<char> ::
      |seps| == |ts| - 1 && (forall k :: 0 <= k < |seps| ==> IsBlank(seps[k])) &&
      Emit(ts, 0, 0, width, rule) == ts[0] + Spaced(ts[1..], seps)
  {
    var c := |ts[0]| + 1;
    EmitFirst(ts, width, rule);
    EmitSpaced(ts, 1, c, width, rule);
    var seps := SeparatorChars(ts, 1, c, width, rule);
    assert |seps| == |ts| - 1 && (forall k :: 0 <= k < |seps| ==> IsBlank(seps[k])) &&
      Emit(ts, 0, 0, width, rule) == ts[0] + Spaced(ts[1..], seps);
  }

  lemma WordsAfterSeparator(sep: string, s: string)
    requires sep == "" || sep == " " || sep == "\n"
    ensures Words(sep + s) == Words(s)
  {
    if sep != "" {
      WordsAfterBlank(sep[0], s);
    } else {
      assert sep + s == s;
    }
  }

  /** A blank-split reader finds in the pixel data exactly the channel
      values of the cells, three per cell, in order. */
  lemma {:induction false} EmitWords(cells: seq<Color>, i: nat, counter: nat, width: nat, rule: Wrap)
    requires i <= |cells|
    ensures Words(Emit(Tokens(cells), i, counter, width, rule)) == ChannelWords(Rgbs(cells)[i..])
    decreases |cells| - i
  {
    if i == |cells| {
      assert Rgbs(cells)[i..] == [];
    } else {
      var c := Advance(rule, width, i, counter, |Tokens(cells)[i]|);
      EmitWordsStep(cells, i, counter, width, rule);
      EmitWords(cells, i + 1, c, width, rule);
      ChannelWordsAt(Rgbs(cells), i);
    }
  }

  /** The words of one token and what follows it. */
  lemma EmitWordsStep(cells: seq<Color>, i: nat, counter: nat, width: nat, rule: Wrap)
    requires i < |cells|
    ensures var c := Advance(rule, width, i, counter, |Tokens(cells)[i]|);
      Words(Emit(Tokens(cells), i, counter, width, rule))
        == ChannelTexts(GetRgb(cells[i])) + Words(Emit(Tokens(cells), i + 1, c, width, rule))
  {
    var ts := Tokens(cells);
    var t := ts[i];
    var sep := Separator(rule, width, i, counter, |t|);
    var c := Advance(rule, width, i, counter, |t|);
    var rest := Emit(ts, i + 1, c, width, rule);
    EmitCons(ts, i, counter, width, rule);
    assert Words(t + rest) == ChannelTexts(GetRgb(cells[i])) + Words(rest) by {
      EmitStartsWithBlank(ts, i + 1, c, width, rule);
      WordsAppend(t, rest);
      RgbTextWords(GetRgb(cells[i]));
    }
    WordsAfterSeparator(sep, t + rest);
  }

  /** The words of the header: magic, width, height, maximum value. */
  lemma HeaderWords(width: nat, height: nat)
    ensures Words(HeaderText(width, height)) == ["P3", Digits(width), Digits(height), "255"]
  {
    var w, h := Digits(width), Digits(height);
    var tail := "255" + ['\n'] + "";
    var mid := h + ['\n'] + tail;
    var line := w + [' '] + mid;
    assert HeaderText(width, height) == "P3" + ['\n'] + line;
    assert Words(tail) == ["255"] by {
      WordsCons("255", '\n', "");
    }
    assert Words(mid) == [h] + Words(tail) by {
      assert NoBlank(h);
      WordsCons(h, '\n', tail);
    }
    assert Words(line) == [w] + Words(mid) by {
      assert NoBlank(w);
      WordsCons(w, ' ', mid);
    }
    assert Words("P3" + ['\n'] + line) == ["P3"] + Words(line) by {
      WordsCons("P3", '\n', line);
    }
  }

  /** Different dimensions give different headers. */
  lemma HeaderTextInjective(w: nat, h: nat, w': nat, h': nat)
    requires HeaderText(w, h) == HeaderText(w', h')
    ensures w == w' && h == h'
  {
    HeaderWords(w, h);
    HeaderWords(w', h');
    DigitsInjective(w, w');
    DigitsInjective(h, h');
  }

  /** A final line feed adds no word. */
  lemma TerminatedWords(s: string)
    ensures Words(Terminated(s)) == Words(s)
  {
    if Terminated(s) != s {
      WordsAppend(s, "\n");
      WordsAfterBlank('\n', "");
    }
  }

  /** Writing and then reading a P3 text is the identity on what the text
      stands for: the dimensions and the bytes of every cell, in order. */
  lemma DecodePpmText(width: nat, height: nat, cells: seq<Color>, rule: Wrap)
    requires |cells| == width * height
    ensures Decode(PpmText(width, height, cells, rule)) == Some(Image(width, height, Rgbs(cells)))
  {
    var header := HeaderText(width, height);
    var body := Emit(Tokens(cells), 0, 0, width, rule);
    var rgbs := Rgbs(cells);
    var ws := Words(PpmText(width, height, cells, rule));
    assert ws == Words(header) + Words(body) by {
      TerminatedWords(header + body);
      assert header[|header| - 1] == '\n';
      WordsAppend(header, body);
    }
    assert Words(body) == ChannelWords(rgbs) by {
      EmitWords(cells, 0, 0, width, rule);
      assert rgbs[0..] == rgbs;
    }
    HeaderWords(width, height);
    DecodeWords(PpmText(width, height, cells, rule), width, height, rgbs);
  }

  /** The written text starts with the header. */
  lemma HeaderPrefix(width: nat, height: nat, cells: seq<Color>, rule: Wrap)
    ensures var text, header := PpmText(width, height, cells, rule), HeaderText(width, height);
      |header| <= |text| && text[..|header|] == header
  {
    var header := HeaderText(width, height);
    var s := header + Emit(Tokens(cells), 0, 0, width, rule);
    assert Terminated(s)[..|s|] == s;
    assert s[..|header|] == header;
  }

  /** The column a counter value stands for: the counter is one more than the
      length of the current line once a token is on it. */
  function Column(counter: nat): nat {
    if counter == 0 then 0 else counter - 1
  }

  /** Line-length bound: from a counter below the threshold, no line of the
      pixel data grows past `MaxLine` (67) characters, so every line stays
      under the 69-column threshold the source checks. */
  lemma {:induction false} EmitFits(ts: seq<string>, i: nat, counter: nat, width: nat, rule: Wrap)
    requires Printable(ts) && i <= |ts| && counter < LineLimit
    ensures FitsLines(Emit(ts, i, counter, width, rule), Column(counter), MaxLine)
    decreases |ts| - i
  {
    if i < |ts| {
      var t := ts[i];
      var sep := Separator(rule, width, i, counter, |t|);
      var c := Advance(rule, width, i, counter, |t|);
      var rest := Emit(ts, i + 1, c, width, rule);
      EmitCons(ts, i, counter, width, rule);
      EmitFits(ts, i + 1, c, width, rule);
      assert NoNewline(t);
      if Breaks(rule, width, i, counter, |t|) {
        FitsAfterBreak(t, rest, Column(counter));
      } else if counter != 0 {
        FitsAfterSpace(t, rest, Column(counter));
      } else {
        assert sep + (t + rest) == t + rest;
        FitsLinesAppend(t, rest, 0, MaxLine);
      }
    }
  }

  /** A token after a line feed starts a fresh line. */
  lemma FitsAfterBreak(t: string, rest: string, col: nat)
    requires NoNewline(t) && col <= MaxLine && FitsLines(rest, |t|, MaxLine)
    ensures FitsLines("\n" + (t + rest), col, MaxLine)
  {
    FitsLinesAppend(t, rest, 0, MaxLine);
    FitsLinesNewline(t + rest, col, MaxLine);
  }

  /** A token after a space continues the current line. */
  lemma FitsAfterSpace(t: string, rest: string, col: nat)
    requires NoNewline(t) && FitsLines(rest, col + 1 + |t|, MaxLine)
    ensures FitsLines(" " + (t + rest), col, MaxLine)
  {
    assert NoNewline(" " + t);
    Regroup3(" ", t, rest);
    FitsLinesAppend(" " + t, rest, col, MaxLine);
  }

  /** The pixel data of a non-empty canvas ends with the last character of
      its last token, never with a line feed. */
  lemma {:induction false} EmitEndsInToken(ts: seq<string>, i: nat, counter: nat, width: nat, rule: Wrap)
    requires Printable(ts) && i < |ts|
    ensures var e := Emit(ts, i, counter, width, rule);
      e != [] && e[|e| - 1] == ts[|ts| - 1][|ts[|ts| - 1]| - 1] && e[|e| - 1] != '\n'
    decreases |ts| - i
  {
    var t := ts[i];
    var c := Advance(rule, width, i, counter, |t|);
    var sep := Separator(rule, width, i, counter, |t|);
    var rest := Emit(ts, i + 1, c, width, rule);
    EmitCons(ts, i, counter, width, rule);
    if i + 1 < |ts| {
      EmitEndsInToken(ts, i + 1, c, width, rule);
      assert (sep + (t + rest))[|sep + (t + rest)| - 1] == rest[|rest| - 1];
    } else {
      assert rest == [];
      assert t + rest == t;
      assert (sep + t)[|sep + t| - 1] == t[|t| - 1];
      assert t[|t| - 1] != '\n';
    }
  }

  /** The lines of the written text: "P3", "<width> <height>", "255", then
      the lines of the pixel data; the final line feed opens no extra line. */
  lemma PpmLines(width: nat, height: nat, cells: seq<Color>, rule: Wrap)
    ensures Lines(PpmText(width, height, cells, rule))
      == ["P3", Digits(width) + " " + Digits(height), "255"] + Lines(Emit(Tokens(cells), 0, 0, width, rule))
  {
    var header := HeaderText(width, height);
    var body := Emit(Tokens(cells), 0, 0, width, rule);
    assert Lines(PpmText(width, height, cells, rule)) == Lines(header + body) by {
      if body == [] {
        assert header + body == header;
      } else {
        DataEndsInToken(width, cells, rule);
        LinesTerminated(header + body);
      }
    }
    HeaderLines(width, height, body);
  }

  /** The pixel data of a canvas is empty or does not end with a line feed. */
  lemma DataEndsInToken(width: nat, cells: seq<Color>, rule: Wrap)
    ensures var e := Emit(Tokens(cells), 0, 0, width, rule); e == [] || e[|e| - 1] != '\n'
  {
    if 0 < |cells| {
      EmitEndsInToken(Tokens(cells), 0, 0, width, rule);
    }
  }

  /** The header is three lines, whatever follows it. */
  lemma HeaderLines(width: nat, height: nat, body: string)
    ensures Lines(HeaderText(width, height) + body)
      == ["P3", Digits(width) + " " + Digits(height), "255"] + Lines(body)
  {
    var dims := Digits(width) + " " + Digits(height);
    HeaderSplit(width, height, body);
    assert NoNewline(dims);
    LinesThree("P3", dims, "255", body);
  }

  lemma HeaderSplit(width: nat, height: nat, body: string)
    ensures HeaderText(width, height) + body
      == "P3" + "\n" + ((Digits(width) + " " + Digits(height)) + "\n" + ("255" + "\n" + body))
  {
  }

  /** Every line of the pixel data is at most `MaxLine` (67) characters. */
  lemma DataLinesFit(width: nat, cells: seq<Color>, rule: Wrap)
    ensures var lines := Lines(Emit(Tokens(cells), 0, 0, width, rule));
      forall k :: 0 <= k < |lines| ==> |lines[k]| <= MaxLine
  {
    EmitFits(Tokens(cells), 0, 0, width, rule);
    FitsLinesBound(Emit(Tokens(cells), 0, 0, width, rule), MaxLine);
  }

  /** Reference layout of the pixel data, token by token: `line` is the text
      of the line being filled; a token that breaks closes it and opens a
      new one, any other token is appended after a space (or directly, on
      the empty first line). */
  function Layout(ts: seq<string>, i: nat, counter: nat, width: nat, rule: Wrap, line: string): seq<string>
    requires i <= |ts|
    decreases |ts| - i
  {
    if i == |ts| then (if line == [] then [] else [line])
    else
      var t := ts[i];
      var c := Advance(rule, width, i, counter, |t|);
      if Breaks(rule, width, i, counter, |t|) then [line] + Layout(ts, i + 1, c, width, rule, t)
      else if counter != 0 then Layout(ts, i + 1, c, width, rule, line + " " + t)
      else Layout(ts, i + 1, c, width, rule, line + t)
  }

  /** The lines of the pixel data are the lines of the reference layout:
      the text `line` of the current line followed by what `Emit` writes
      splits into exactly the lines `Layout` builds. */
  lemma {:induction false} EmitLines(ts: seq<string>, i: nat, counter: nat, width: nat, rule: Wrap, line: string)
    requires Printable(ts) && i <= |ts| && NoNewline(line)
    ensures Lines(line + Emit(ts, i, counter, width, rule)) == Layout(ts, i, counter, width, rule, line)
    decreases |ts| - i
  {
    if i == |ts| {
      assert line + "" == line;
      if line != [] {
        LinesOfLine(line);
      }
    } else {
      var t := ts[i];
      var c := Advance(rule, width, i, counter, |t|);
      var rest := Emit(ts, i + 1, c, width, rule);
      EmitCons(ts, i, counter, width, rule);
      assert NoNewline(t);
      var sep := Separator(rule, width, i, counter, |t|);
      if Breaks(rule, width, i, counter, |t|) {
        assert line + Emit(ts, i, counter, width, rule) == line + "\n" + (t + rest) by {
          assert sep == "\n";
          Regroup3(line, "\n", t + rest);
        }
        EmitLines(ts, i + 1, c, width, rule, t);
        LinesCons(line, t + rest);
      } else if counter != 0 {
        assert line + Emit(ts, i, counter, width, rule) == (line + " " + t) + rest by {
          assert sep == " ";
          Regroup(line, " ", t, rest);
        }
        assert NoNewline(line + " " + t);
        EmitLines(ts, i + 1, c, width, rule, line + " " + t);
      } else {
        assert line + Emit(ts, i, counter, width, rule) == (line + t) + rest by {
          assert sep == "";
          assert "" + (t + rest) == t + rest;
          Regroup3(line, t, rest);
        }
        assert NoNewline(line + t);
        EmitLines(ts, i + 1, c, width, rule, line + t);
      }
    }
  }

  /** The text opens with the three header lines. */
  lemma HeaderFirst(width: nat, height: nat, cells: seq<Color>, rule: Wrap)
    ensures var lines := Lines(PpmText(width, height, cells, rule));
      |lines| >= 3 && lines[..3] == ["P3", Digits(width) + " " + Digits(height), "255"]
  {
    PpmLines(width, height, cells, rule);
  }

  /** After the three header lines, the lines of the text are exactly those
      of the reference layout of the cells' tokens. */
  lemma PpmLayout(width: nat, height: nat, cells: seq<Color>, rule: Wrap)
    ensures var lines := Lines(PpmText(width, height, cells, rule));
      |lines| >= 3 && lines[3..] == Layout(Tokens(cells), 0, 0, width, rule, "")
  {
    var body := Emit(Tokens(cells), 0, 0, width, rule);
    PpmLines(width, height, cells, rule);
    EmitLines(Tokens(cells), 0, 0, width, rule, "");
    assert "" + body == body;
  }

  // ------------------------------------------------------------ row-aligned layout

  /** Tokens separated by single spaces. */
  function Join(ts: seq<string>): string {
    if |ts| == 0 then "" else if |ts| == 1 then ts[0] else Join(ts[..|ts| - 1]) + " " + ts[|ts| - 1]
  }

  /** The canvas rows from index `s` on, `width` tokens each (the last one
      possibly shorter), each row's tokens joined by single spaces. */
  function RowsFrom(ts: seq<string>, s: nat, width: nat): seq<string>
    requires 0 < width
    decreases |ts| - s
  {
    if s >= |ts| then [] else [Join(ts[s..if s + width < |ts| then s + width else |ts|])] + RowsFrom(ts, s + width, width)
  }

  /** Tokens `s..s+j` of a row, joined, extended by the next token. */
  lemma JoinNext(ts: seq<string>, s: nat, j: nat)
    requires 0 < j && s + j < |ts|
    ensures Join(ts[s..s + j + 1]) == Join(ts[s..s + j]) + " " + ts[s + j]
  {
    assert ts[s..s + j + 1][..j] == ts[s..s + j];
  }

  /** Where a token falls in its row: position `j` of the row starting at `s`. */
  lemma RowPosition(width: nat, s: nat, j: nat)
    requires j < width && s % width == 0
    ensures (s + j) % width == j
    ensures (s + width) % width == 0
  {
    var r := s / width;
    assert s == width * r;
    DivModUnique(s + j, width, r, j);
    assert s + width == width * (r + 1);
    DivModUnique(s + width, width, r + 1, 0);
  }

  /** The space a row's first `j + 1` tokens take, at most `bound` characters
      each, stays below the threshold while the row is not full. */
  lemma RowRoom(width: nat, bound: nat, j: nat, counter: nat, len: nat)
    requires j < width && width * (bound + 1) < LineLimit
    requires counter <= j * (bound + 1) && len <= bound
    ensures counter + len + 1 <= (j + 1) * (bound + 1) < LineLimit
  {
    assert (j + 1) * (bound + 1) == j * (bound + 1) + (bound + 1);
    MulStep(bound + 1, j, width);
    assert (bound + 1) * width == width * (bound + 1);
  }

  /** A token that opens a row (other than the first) starts a new line. */
  lemma RowBreak(ts: seq<string>, width: nat, i: nat, counter: nat, line: string)
    requires 0 < i < |ts| && 0 < width && i % width == 0
    ensures Layout(ts, i, counter, width, RowAligned, line)
         == [line] + Layout(ts, i + 1, |ts[i]| + 1, width, RowAligned, ts[i])
  {
  }

  /** A token inside a row that leaves room joins the line after a space. */
  lemma RowJoin(ts: seq<string>, width: nat, i: nat, counter: nat, line: string)
    requires i < |ts| && 0 < width && i % width != 0
    requires 0 < counter && counter + |ts[i]| + 1 < LineLimit
    ensures Layout(ts, i, counter, width, RowAligned, line)
         == Layout(ts, i + 1, counter + |ts[i]| + 1, width, RowAligned, line + " " + ts[i])
  {
  }

  /** Within a row of the row-aligned layout: after the first `j` tokens of
      the row starting at `s`, with the line holding their
      join and the counter one more than its length, the rest of the layout
      is this row's full join followed by the later rows, provided no row is
      long enough to reach the 69 threshold. */
  lemma {:induction false} RowAlignedFrom(ts: seq<string>, width: nat, bound: nat, s: nat, j: nat, counter: nat, line: string)
    requires 0 < width && width * (bound + 1) < LineLimit
    requires forall k :: 0 <= k < |ts| ==> 0 < |ts[k]| <= bound
    requires s % width == 0 && 0 < j <= width && s + j <= |ts|
    requires line == Join(ts[s..s + j]) && counter == |line| + 1
    requires counter <= j * (bound + 1)
    ensures Layout(ts, s + j, counter, width, RowAligned, line) == RowsFrom(ts, s, width)
    decreases |ts| - (s + j), 1
  {
    if s + j == |ts| {
      RowEnd(ts, width, s, j, counter, line);
    } else if j == width {
      RowAlignedNewRow(ts, width, bound, s, j, counter, line);
    } else {
      RowAlignedSameRow(ts, width, bound, s, j, counter, line);
    }
  }

  /** The case of `RowAlignedFrom` where the row is full and another follows. */
  lemma {:induction false} RowAlignedNewRow(ts: seq<string>, width: nat, bound: nat, s: nat, j: nat, counter: nat, line: string)
    requires 0 < width && width * (bound + 1) < LineLimit
    requires forall k :: 0 <= k < |ts| ==> 0 < |ts[k]| <= bound
    requires s % width == 0 && 0 < j <= width && s + j < |ts| && j == width
    requires line == Join(ts[s..s + j]) && counter == |line| + 1
    requires counter <= j * (bound + 1)
    ensures Layout(ts, s + j, counter, width, RowAligned, line) == RowsFrom(ts, s, width)
    decreases |ts| - (s + j), 0
  {
    var i := s + j;
    RowPosition(width, s, 0);
    JoinOne(ts, i);
    calc {
      Layout(ts, i, counter, width, RowAligned, line);
      { RowBreak(ts, width, i, counter, line); }
      [line] + Layout(ts, i + 1, |ts[i]| + 1, width, RowAligned, ts[i]);
      { RowAlignedFrom(ts, width, bound, i, 1, |ts[i]| + 1, ts[i]); }
      [line] + RowsFrom(ts, i, width);
      { RowsFromFull(ts, s, width); }
      RowsFrom(ts, s, width);
    }
  }

  /** The case of `RowAlignedFrom` where the next token joins the row. */
  lemma {:induction false} RowAlignedSameRow(ts: seq<string>, width: nat, bound: nat, s: nat, j: nat, counter: nat, line: string)
    requires 0 < width && width * (bound + 1) < LineLimit
    requires forall k :: 0 <= k < |ts| ==> 0 < |ts[k]| <= bound
    requires s % width == 0 && 0 < j < width && s + j < |ts|
    requires line == Join(ts[s..s + j]) && counter == |line| + 1
    requires counter <= j * (bound + 1)
    ensures Layout(ts, s + j, counter, width, RowAligned, line) == RowsFrom(ts, s, width)
    decreases |ts| - (s + j), 0
  {
    var i := s + j;
    RowPosition(width, s, j);
    RowRoom(width, bound, j, counter, |ts[i]|);
    RowJoin(ts, width, i, counter, line);
    JoinNext(ts, s, j);
    RowAlignedFrom(ts, width, bound, s, j + 1, counter + |ts[i]| + 1, line + " " + ts[i]);
  }

  /** A full row followed by the later rows. */
  lemma RowsFromFull(ts: seq<string>, s: nat, width: nat)
    requires 0 < width && s + width < |ts|
    ensures RowsFrom(ts, s, width) == [Join(ts[s..s + width])] + RowsFrom(ts, s + width, width)
  {
  }

  /** The last row, once all its tokens are on the line. */
  lemma RowEnd(ts: seq<string>, width: nat, s: nat, j: nat, counter: nat, line: string)
    requires 0 < j <= width && s + j == |ts|
    requires forall k :: s <= k < |ts| ==> 0 < |ts[k]|
    requires line == Join(ts[s..s + j])
    ensures Layout(ts, s + j, counter, width, RowAligned, line) == RowsFrom(ts, s, width)
  {
    JoinNonEmpty(ts[s..s + j]);
  }

  lemma JoinOne(ts: seq<string>, i: nat)
    requires i < |ts|
    ensures Join(ts[i..i + 1]) == ts[i]
  {
    assert |ts[i..i + 1]| == 1;
  }

  lemma {:induction false} JoinNonEmpty(ts: seq<string>)
    requires ts != [] && forall k :: 0 <= k < |ts| ==> 0 < |ts[k]|
    ensures |Join(ts)| > 0
    decreases |ts|
  {
  }

  /** The intended layout: when a whole row of tokens fits under the 69
      threshold, the row-aligned rule puts each canvas row on a line of its
      own, the row's tokens separated by single spaces. */
  lemma RowAlignedLayout(ts: seq<string>, width: nat, bound: nat)
    requires 0 < width && width * (bound + 1) < LineLimit
    requires forall k :: 0 <= k < |ts| ==> 0 < |ts[k]| <= bound
    ensures Layout(ts, 0, 0, width, RowAligned, "") == RowsFrom(ts, 0, width)
  {
    if ts != [] {
      var t := ts[0];
      RowRoom(width, bound, 0, 0, |t|);
      assert "" + t == t;
      assert ts[0..1] == [t];
      RowAlignedFrom(ts, width, bound, 0, 1, |t| + 1, t);
    }
  }

  /** A canvas of `height` full rows has `height` rows. */
  lemma {:induction false} RowsFromCount(ts: seq<string>, width: nat, k: nat, height: nat)
    requires 0 < width && |ts| == width * height && k <= height
    ensures |RowsFrom(ts, width * k, width)| == height - k
    decreases height - k
  {
    if k < height {
      MulStep(width, k, height);
      assert width * k + width == width * (k + 1);
      RowsFromCount(ts, width, k + 1, height);
    }
  }

  /** With the row-aligned rule, a canvas at most five pixels wide (a row of
      tokens of at most 11 characters stays below the threshold) is written
      one canvas row per line: after the header come exactly `height` lines,
      each the row's colour texts separated by single spaces. */
  lemma RowAlignedRows(width: nat, height: nat, cells: seq<Color>)
    requires 0 < width <= 5 && |cells| == width * height
    ensures var lines := Lines(PpmText(width, height, cells, RowAligned));
      |lines| == 3 + height && lines[3..] == RowsFrom(Tokens(cells), 0, width)
  {
    var ts := Tokens(cells);
    PpmLayout(width, height, cells, RowAligned);
    RowAlignedLayout(ts, width, 11);
    RowsFromCount(ts, width, 0, height);
  }
}
