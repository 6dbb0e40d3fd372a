# Canvas and PPM writer of a Rust ray tracer, modelled in Dafny

The modelled component is the canvas of the ray tracer (`src/canvas.rs`). A
canvas is a `width` by `height` grid of colours, stored row-major in one
buffer. It is created filled with one colour, written and read pixel by pixel,
and walked in index order by an iterator. It is then turned into text in the
plain "P3" PPM format:

- a header `P3`, `<width> <height>`, `255`, one per line;
- every pixel as the token `"R G B"`, its channels scaled by 255 and narrowed
  to bytes;
- the tokens joined by spaces, with a line feed wherever a running column
  counter says a token would not fit;
- a final line feed.

The project is split by module:

- `Colors` (`colors.dfy`): colours, byte narrowing, the colour token.
- `Decimal` (`decimal.dfy`): decimal text of numbers.
- `Canvases` (`canvas.dfy`): the canvas class, its iterator, and iteration of
  the whole canvas.
- `Ppm` (`ppm.dfy`): the text writer as methods over a string buffer. These
  are proved against specification functions. The module also holds the
  properties of the written text.
- `Text` (`text.dfy`): two independent readers used to state those
  properties. `Words` splits at blanks, as a P3 reader does. `Lines` splits at
  line feeds, as Rust's `str::lines` does.
- `P3Reader` (`reader.dfy`): a P3 reader used for the round trip.
- `PpmExamples` (`ppm_examples.dfy`): the source's unit tests, stated on the
  model.

The canvas is a class. Its buffer is an `array` whose cells `WritePixel`
updates in place. The iterator is a class whose cursor `Next` advances. The
writer methods thread the text buffer through as a `string` value: each takes
the buffer and returns the extended one, standing for the source's
`&mut String`.

The source's wrap test (`counter > width * rgb_len`) is modelled as written,
and the methods follow it. The specification function `Ppm.Emit` takes a wrap
rule as a parameter:

- `AsWritten` is the source's test;
- `RowAligned` is the rule the source's own test expects (see Findings).

Every general property is proved for both rules:

- the round trip through a P3 reader;
- the 67-character line bound;
- tokens never split;
- the line layout.

## Model

| member | source | states |
|---|---|---|
| Colors.ToByte | src/canvas.rs:36-38 | `(v * 255.) as u8` is the largest byte not above the scaled value: it saturates at 0 and 255 and never rounds up |
| Colors.ToByteMonotone | src/canvas.rs:36-38 | narrowing preserves the order of channel values |
| Colors.ToByteOfByte | src/canvas.rs:36-38 | the channel n/255 narrows back to the byte n |
| Colors.GetRgb | src/canvas.rs:34-40 | each channel of the result is the largest byte not above the channel times 255, saturating at 0 and 255, in red, green, blue order |
| Colors.GetRgbOfBytes | src/canvas.rs:34-40 | a colour whose channels are bytes over 255 narrows back to exactly those bytes |
| Colors.RgbText | src/canvas.rs:106 | the token of a byte triple has no line feed and is 5 to 11 characters long |
| Colors.RgbTextWords | src/canvas.rs:106 | splitting a token at blanks gives exactly the decimal texts of its three channels |
| Colors.ColorText | src/canvas.rs:103-110 | a colour's token is 5 to 11 characters long and has no line feed |
| Colors.ParseRgbText | src/canvas.rs:103-110 | a token reads back as the byte triple it was written from |
| Colors.ToByteExamples | src/canvas.rs:385-387 | 1.5 saturates to 255, 0.5 truncates to 127, -0.5 saturates to 0 |
| Decimal.Digits | src/canvas.rs:126 | the decimal text of a number is non-empty digits with no leading zero |
| Decimal.ParseDigits | src/canvas.rs:126 | reading the decimal text of n gives n back |
| Decimal.DigitsInjective | src/canvas.rs:126 | different numbers have different decimal texts |
| Canvases.Written | src/canvas.rs:208-214 | a write replaces exactly the cell at the index, and a write past the end changes nothing |
| Canvases.IndexRowMajor | src/canvas.rs:204-206 | an index `x + width*y` with `x < width` gives back x as its remainder and y as its quotient |
| Canvases.IndexInBounds | src/canvas.rs:204-206 | a coordinate inside the canvas has an index inside the buffer |
| Canvases.Index | src/canvas.rs:205 | the linear index of a coordinate with x < width lies in row y's span of the buffer, from width·y up to width·(y+1) |
| Canvases.IndexCovers | src/canvas.rs:200-206 | every buffer index is the index of the coordinate (i % width, i / width) inside the canvas, and of no other coordinate with x < width |
| Canvases.WriteBoundIsLinear | src/canvas.rs:208-214 | writing at x == width lands on the first cell of the next row, because only the linear index is bounds-checked |
| Canvases.Canvas.constructor | src/canvas.rs:177-190 | the canvas has the given dimensions and `width*height` cells, all of the given colour or black |
| Canvases.Canvas.Len | src/canvas.rs:200-202 | `len` is the number of cells in the buffer |
| Canvases.Canvas.GetIndex | src/canvas.rs:204-206 | the index is `x + width*y` for every x and y, including x past the right edge; for x < width it is row-major (x and y are recovered from it), and a coordinate inside the canvas lands inside the buffer |
| Canvases.Canvas.WritePixel | src/canvas.rs:208-214 | the cells after the call are the old cells with the one at `get_index(x, y)` replaced when that index is in range, and otherwise unchanged |
| Canvases.Canvas.PixelAt | src/canvas.rs:216-219 | the result is the cell at `get_index(x, y)` |
| Canvases.CanvasIter.constructor | src/canvas.rs:231-238 | the cursor starts at index 0 of the given canvas |
| Canvases.CanvasIter.Next | src/canvas.rs:243-252 | before the end, it returns the cell at the cursor and advances by one; at the end, it returns `None` and leaves the cursor alone |
| Canvases.Collect | src/canvas.rs:348-352 | a `for c in &canvas` loop, driving the iterator until it returns `None`, visits exactly the cells, in index order |
| Canvases.CreatesACanvas | src/canvas.rs:341-353 | a 10 by 20 canvas has 200 cells, all black |
| Canvases.WritesPixelsToCanvas | src/canvas.rs:356-366 | red written at (2, 3) is read back there, and every other cell stays black |
| Ppm.Breaks | src/canvas.rs:137 | the wrap test: as written, `counter > width * len` or `counter + len + 1 >= 69`; the row-aligned alternative breaks at every row start instead of the first disjunct |
| Ppm.Separator | src/canvas.rs:137-144 | what precedes a token: a line feed when it breaks, a space when the counter is non-zero, nothing otherwise |
| Ppm.Advance | src/canvas.rs:139-146 | the counter after a token: reset by a break, then grown by the token's length plus one |
| Ppm.SeparatorShape | src/canvas.rs:137-146 | the separator is a line feed exactly when the token breaks, empty exactly when it does not break at counter zero, and otherwise one space; the counter always grows past the token's length |
| Ppm.Emit | src/canvas.rs:130-149 | the pixel data for the tokens from `i` on, each after its separator, with the counter threaded through; its properties are the Emit lemmas below |
| Ppm.HeaderText | src/canvas.rs:126 | the header "P3", width and height, "255", each followed by a line feed; its words and lines are pinned by HeaderWords and HeaderLines |
| Ppm.HeaderTextInjective | src/canvas.rs:126 | different dimensions give different headers |
| Ppm.PpmText | src/canvas.rs:115-155 | the whole text, header then pixel data then the final line feed; its properties are DecodePpmText, PpmLines and PpmLayout |
| Ppm.Tokens | src/canvas.rs:132-134 | the tokens are those of the cells, one per cell, in iteration order, each printable |
| Ppm.Terminated | src/canvas.rs:151-155 | the result ends with a line feed, extends its input by at most that character, and equals its input when the input already ended with one |
| Ppm.Header | src/canvas.rs:125-128 | the buffer is extended by exactly the header text |
| Ppm.SerializeColors | src/canvas.rs:130-149 | the buffer is extended by exactly the pixel data the wrap rule defines for the canvas's cells |
| Ppm.EndsWithNewLine | src/canvas.rs:151-155 | the buffer gets a line feed appended exactly when it does not already end with one |
| Ppm.Stringify | src/canvas.rs:115-123 | the text is the header, the pixel data and a final line feed; it starts with the header, ends with a line feed, and reads back as the canvas's dimensions and pixel bytes |
| Ppm.FirstTokenUnseparated | src/canvas.rs:137-146 | the first token gets no line feed and no space, and leaves the counter at its length plus one |
| Ppm.EmitFirst | src/canvas.rs:137-147 | the pixel data starts with the first token itself |
| Ppm.EmitStartsWithBlank | src/canvas.rs:137-147 | once the counter is positive, the data that follows starts with a blank |
| Ppm.EmitSpaced | src/canvas.rs:136-148 | after the first token, every token follows exactly one separator, a space or a line feed |
| Ppm.EmitLayout | src/canvas.rs:136-148 | the pixel data is the first token, then each later token after exactly one blank: no token is cut in half, glued to its neighbour or separated twice |
| Ppm.EmitWords | src/canvas.rs:130-149 | the words of the pixel data are the channel values of the cells, three per cell, in order |
| Ppm.HeaderWords | src/canvas.rs:125-128 | the header's words are "P3", the width, the height and "255" |
| Ppm.TerminatedWords | src/canvas.rs:151-155 | the final line feed adds no word |
| Ppm.DecodePpmText | src/canvas.rs:115-155 | a P3 reader recovers from the text the width, the height and the bytes of every cell in order, under either wrap rule |
| Ppm.HeaderPrefix | src/canvas.rs:115-128 | the text starts with the header |
| Ppm.EmitFits | src/canvas.rs:136-140 | from a counter below 69, no line of the pixel data exceeds 67 characters |
| Ppm.DataLinesFit | src/canvas.rs:136-140 | every pixel-data line is at most 67 characters, so lines stay under the 70-character limit the comment promises |
| Ppm.EmitEndsInToken | src/canvas.rs:142-148 | non-empty pixel data ends with the last character of the last token, so never with a line feed |
| Ppm.PpmLines | src/canvas.rs:115-155 | the lines of the text are "P3", "<width> <height>", "255", then the lines of the pixel data; the final line feed opens no empty line |
| Ppm.HeaderLines | src/canvas.rs:125-128 | the header is three lines, whatever follows it |
| Ppm.HeaderFirst | src/canvas.rs:125-128 | the first three lines of the text are the header lines |
| Ppm.EmitLines | src/canvas.rs:130-149 | the lines of the pixel data are those the reference layout builds token by token |
| Ppm.PpmLayout | src/canvas.rs:130-149 | after the header lines, the lines of the text are the reference layout of the cells' tokens |
| Ppm.RowAlignedLayout | src/canvas.rs:137 | under the row-aligned rule, when a full row stays below 69 columns, the lines are the canvas rows, each row's tokens joined by single spaces |
| Ppm.RowAlignedRows | src/canvas.rs:137 | under the row-aligned rule, a canvas at most five wide is written as the header plus exactly `height` lines, one per canvas row |
| PpmExamples.DigitsExamples | src/canvas.rs:376-378 | the decimal texts of the numbers the tests print |
| PpmExamples.TokenExamples | src/canvas.rs:384-413 | the tokens of the test colours: "0 0 0", "255 0 0", "0 127 0", "0 0 255", "255 204 153" |
| PpmExamples.TokensOfCells5x3 | src/canvas.rs:383-391 | the tokens of the 5 by 3 test canvas after its three writes |
| PpmExamples.TokensOfCells10x2 | src/canvas.rs:404-405 | the tokens of the 10 by 2 canvas filled with (1, 0.8, 0.6) |
| PpmExamples.Layout5x3AsWritten | src/canvas.rs:382-400 | with the code's wrap test, the 5 by 3 test canvas is laid out on four lines of 4, 4, 5 and 2 tokens |
| PpmExamples.Layout5x3RowAligned | src/canvas.rs:382-400 | with the row-aligned rule, the 5 by 3 test canvas is laid out as the three lines the test expects |
| PpmExamples.Layout10x2AsWritten | src/canvas.rs:403-431 | the 10 by 2 test canvas is laid out as four lines of five tokens |
| PpmExamples.Layout10x2RowAligned | src/canvas.rs:403-431 | the row-aligned rule gives the same four lines for the 10 by 2 canvas |
| PpmExamples.HeaderLines10x20 | src/canvas.rs:369-379 | the text of a 10 by 20 canvas opens with "P3", "10 20", "255" |
| PpmExamples.DataLines5x3 | src/canvas.rs:382-400 | with the code's wrap test, the text of the 5 by 3 test canvas has these four data lines |
| PpmExamples.DataLines5x3RowAligned | src/canvas.rs:382-400 | with the row-aligned rule, the text of the 5 by 3 test canvas has the test's three data lines |
| PpmExamples.DataLines10x2 | src/canvas.rs:403-431 | the text of the 10 by 2 test canvas has the test's four data lines |
| PpmExamples.CheckHeaderCorrectness | src/canvas.rs:369-379 | `check_header_correctness`: the first three lines are "P3", "10 20", "255" |
| PpmExamples.CheckStringifiedColorCorrectness | src/canvas.rs:382-400 | `check_stringified_color_correctness` on the code as written: the data comes out as four lines, not the test's three |
| PpmExamples.SplittingLongLines | src/canvas.rs:403-431 | `splitting_long_lines_in_ppm_without_cutting_color_in_half`: four lines of five whole tokens |
| PpmExamples.PpmEndsWithNewLine | src/canvas.rs:434-440 | `ppm_ends_with_new_line`: the text ends with a line feed |

## Left out

- Colour channels are exact reals, not `f32`. The product `v * 255.` is exact, so the model does not capture f32 rounding. That rounding can move a product sitting just below an integer across it. Reals also have no NaN, which the cast turns into 0, and no infinities, which it saturates to 0 or 255.
- `usize` arithmetic is unbounded in the model. Overflow of `width * height`, `x + width * y` or the column counter is not modelled.
- Canvases.Canvas.PixelAt: the source panics when the index is out of range. The model instead requires the index to be inside the buffer.
- `Color::new`, the colour arithmetic (`Add`, `Sub` and the three `Mul` impls, src/canvas.rs:43-101) and their tests are not part of this model. They are floating-point operations outside the text writer.
- `Color::get_raw` and `ColorFormat::Raw` are not modelled. `get_rgb` always returns the byte form, so the `Err(fmt::Error)` branch of `Display for Color` is unreachable and is not modelled either.
- `Canvas::get_width` and `Canvas::get_height` are plain field reads. The model uses `width` and `height` directly.
- `Canvas::to_ppm` is `Ppm.Stringify` under another name. `Display for Ppm` writes the stored text unchanged, so the model reads `ppm.text`.
- `Ppm::write_to_file` is not modelled, because it is file I/O.
- Lifetimes and borrowing of `CanvasIter` are not modelled. The iterator holds a reference to the canvas object.
- `IntoIterator for &Canvas` (src/canvas.rs:260-262) only builds the iterator, which is `Canvases.CanvasIter.constructor`. The `for` loops that drive it (src/canvas.rs:132 and 348) are `Canvases.Collect` and the loop of `Ppm.SerializeColors`.
- src/math.rs, src/sim.rs and src/main.rs are not part of this model.

## Findings

| source | as written | input that shows it | evidently intended | confidence | as-written member | corrected member |
|---|---|---|---|---|---|---|
| src/canvas.rs:137 | A token starts a new line when `counter > width * rgb_len`. This compares the characters already on the line with the canvas width times the length of the current token, not with the end of a canvas row. | The 5 by 3 canvas of the test at src/canvas.rs:382-400. After "255 0 0" and three "0 0 0" tokens the counter is 26, which exceeds 5 × 5. So the fifth token of the first row opens a new line. The data comes out as four lines of 4, 4, 5 and 2 tokens, not the three one-row lines the test asserts. | Every canvas row starts on a new line, and the 69-column rule still splits rows that are too long. Under this rule the 5 by 3 test gives its three lines, and the 10 by 2 test still gives its four lines of five tokens. | not executed | PpmExamples.DataLines5x3 | Ppm.RowAlignedRows |
