/**
  * Colours and their 8-bit text form. A colour keeps three unbounded
  * channels (red, green, blue); only when it is written out is each channel
  * scaled by 255 and narrowed to a byte, and the byte triple printed as
  * "R G B".
  */
module Colors {
  import opened Decimal
  import opened Text
  import opened Wrappers

  type Byte = n: int | 0 <= n < 256

  /** `Color(red, green, blue)`; channels may be negative or above one. */
  datatype Color = Color(red: real, green: real, blue: real)

  /** The default canvas colour. */
  const Black := Color(0.0, 0.0, 0.0)

  /** A colour narrowed to bytes (`ColorFormat::RGB`). */
  datatype Rgb = Rgb(red: Byte, green: Byte, blue: Byte)

  /** `(channel * 255.) as u8`: a float-to-integer `as` cast truncates toward
      zero and saturates at the bounds of the target type. The result is the
      largest byte not above the scaled value, or 0 when the value is below
      every byte: it never rounds up and never loses a whole unit. */
  function ToByte(channel: real): (b: Byte)
    ensures b == 0 || b as real <= channel * 255.0
    ensures b == 255 || channel * 255.0 < b as real + 1.0
  {
    var scaled := channel * 255.0;
    if scaled <= 0.0 then 0 else if scaled >= 255.0 then 255 else scaled.Floor
  }

  /** Narrowing preserves the order of channel values. */
  lemma ToByteMonotone(x: real, y: real)
    requires x <= y
    ensures ToByte(x) <= ToByte(y)
  {
    if 0.0 < x * 255.0 && y * 255.0 < 255.0 {
      assert x * 255.0 <= y * 255.0;
    }
  }

  /** A byte `n` stored as the channel `n / 255` is narrowed back to `n`. */
  lemma ToByteOfByte(n: Byte)
    ensures ToByte(n as real / 255.0) == n
  {
    assert (n as real / 255.0) * 255.0 == n as real;
  }

  /** `Color::get_rgb`: each channel, scaled by 255, narrowed to the largest
      byte not above it, saturating at 0 and 255. */
  function GetRgb(c: Color): (rgb: Rgb)
    ensures rgb.red == 0 || rgb.red as real <= c.red * 255.0
    ensures rgb.red == 255 || c.red * 255.0 < rgb.red as real + 1.0
    ensures rgb.green == 0 || rgb.green as real <= c.green * 255.0
    ensures rgb.green == 255 || c.green * 255.0 < rgb.green as real + 1.0
    ensures rgb.blue == 0 || rgb.blue as real <= c.blue * 255.0
    ensures rgb.blue == 255 || c.blue * 255.0 < rgb.blue as real + 1.0
  {
    Rgb(ToByte(c.red), ToByte(c.green), ToByte(c.blue))
  }

  /** A colour whose channels are bytes over 255 narrows back to those bytes. */
  lemma GetRgbOfBytes(r: Byte, g: Byte, b: Byte)
    ensures GetRgb(Color(r as real / 255.0, g as real / 255.0, b as real / 255.0)) == Rgb(r, g, b)
  {
    ToByteOfByte(r);
    ToByteOfByte(g);
    ToByteOfByte(b);
  }

  /** The decimal texts of the three channels of `rgb`, in order. */
  function ChannelTexts(rgb: Rgb): seq<string> {
    [Digits(rgb.red), Digits(rgb.green), Digits(rgb.blue)]
  }

  /** The token `"{} {} {}"` for a byte triple: three decimal numbers
      separated by single spaces, with no line feed, between 5 ("0 0 0") and
      11 ("255 255 255") characters long. */
  function RgbText(rgb: Rgb): (t: string)
    ensures 5 <= |t| <= 11
    ensures NoNewline(t)
  {
    Digits(rgb.red) + " " + Digits(rgb.green) + " " + Digits(rgb.blue)
  }

  /** A reader that splits a token at blanks finds exactly its three channels. */
  lemma RgbTextWords(rgb: Rgb)
    ensures Words(RgbText(rgb)) == ChannelTexts(rgb)
  {
    var r, g, b := Digits(rgb.red), Digits(rgb.green), Digits(rgb.blue);
    assert NoBlank(r) && NoBlank(g) && NoBlank(b);
    WordsOfWord(r);
    WordsOfWord(g);
    WordsOfWord(b);
    assert RgbText(rgb) == r + ([' '] + (g + ([' '] + b)));
    WordsAppend(r, [' '] + (g + ([' '] + b)));
    WordsAfterBlank(' ', g + ([' '] + b));
    WordsAppend(g, [' '] + b);
    WordsAfterBlank(' ', b);
  }

  /** `impl Display for Color`: the token of the colour's byte triple. */
  function ColorText(c: Color): (t: string)
    ensures 5 <= |t| <= 11 && NoNewline(t)
  {
    RgbText(GetRgb(c))
  }

  /** Reads one byte back from its decimal text. */
  function ParseByte(s: string): Option<Byte> {
    match ParseNat(s)
    case Some(n) => if n < 256 then Some(n) else None
    case None => None
  }

  /** Reads the three channel texts of a token back into a byte triple. */
  function ParseRgb(ws: seq<string>): Option<Rgb>
    requires |ws| == 3
  {
    match (ParseByte(ws[0]), ParseByte(ws[1]), ParseByte(ws[2]))
    case (Some(r), Some(g), Some(b)) => Some(Rgb(r, g, b))
    case _ => None
  }

  /** The token of a byte triple reads back as that triple. */
  lemma ParseRgbText(rgb: Rgb)
    ensures |Words(RgbText(rgb))| == 3 && ParseRgb(Words(RgbText(rgb))) == Some(rgb)
  {
    RgbTextWords(rgb);
    ParseDigits(rgb.red);
    ParseDigits(rgb.green);
    ParseDigits(rgb.blue);
  }

  /** The channel values pinned by the source's test of the text form:
      1.5 saturates to 255, 0.5 truncates to 127, -0.5 saturates to 0. */
  lemma ToByteExamples()
    ensures ToByte(1.5) == 255 && ToByte(0.5) == 127 && ToByte(-0.5) == 0
    ensures ToByte(1.0) == 255 && ToByte(0.0) == 0
  {
    var half := ToByte(0.5);
    assert half as real <= 127.5 < half as real + 1.0;
  }
}
