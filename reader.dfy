/**
  * A reader of the plain-text "P3" image format, independent of the writer:
  * the text is a sequence of blank-separated words, the magic "P3", the
  * width, the height, the maximum value 255, and then three channel values
  * per pixel. It is the reference against which the writer is proved.
  */
module P3Reader {
  import opened Wrappers
  import opened Decimal
  import opened Text
  import opened Colors

  /** What a P3 text denotes: its dimensions and its pixels in order. */
  datatype Image = Image(width: nat, height: nat, pixels: seq<Rgb>)

  /** The channel texts of a run of pixels, three per pixel. */
  function ChannelWords(rgbs: seq<Rgb>): seq<string> {
    if rgbs == [] then [] else ChannelTexts(rgbs[0]) + ChannelWords(rgbs[1..])
  }

  /** Unfolds `ChannelWords` on a suffix. */
  lemma ChannelWordsAt(rgbs: seq<Rgb>, i: nat)
    requires i < |rgbs|
    ensures ChannelWords(rgbs[i..]) == ChannelTexts(rgbs[i]) + ChannelWords(rgbs[i + 1..])
  {
    assert rgbs[i..][1..] == rgbs[i + 1..];
  }

  /** Reads pixels from channel words, three words per pixel, each a decimal
      byte; a word count that is not a multiple of three, or a word that is
      not a byte, is rejected. */
  function DecodePixels(ws: seq<string>): (r: Option<seq<Rgb>>)
    ensures r.Some? ==> 3 * |r.value| == |ws|
    decreases |ws|
  {
    if ws == [] then Some([])
    else if |ws| < 3 then None
    else
      match (ParseRgb(ws[..3]), DecodePixels(ws[3..]))
      case (Some(p), Some(ps)) => Some([p] + ps)
      case _ => None
  }

  /** Reads a whole P3 text. */
  function Decode(s: string): Option<Image> {
    var ws := Words(s);
    if |ws| < 4 || ws[0] != "P3" || ws[3] != "255" then None
    else
      match (ParseNat(ws[1]), ParseNat(ws[2]), DecodePixels(ws[4..]))
      case (Some(w), Some(h), Some(px)) => if |px| == w * h then Some(Image(w, h, px)) else None
      case _ => None
  }

  /** The channel words of a run of pixels read back as those pixels. */
  lemma {:induction false} DecodeChannelWords(rgbs: seq<Rgb>)
    ensures DecodePixels(ChannelWords(rgbs)) == Some(rgbs)
    decreases |rgbs|
  {
    if rgbs != [] {
      var ws := ChannelWords(rgbs);
      assert ws[..3] == ChannelTexts(rgbs[0]);
      assert ws[3..] == ChannelWords(rgbs[1..]);
      RgbTextWords(rgbs[0]);
      ParseRgbText(rgbs[0]);
      DecodeChannelWords(rgbs[1..]);
      assert [rgbs[0]] + rgbs[1..] == rgbs;
    }
  }

  /** A text whose words are the magic, the decimal width and height, the
      maximum value and the channel words of `width * height` pixels reads
      back as that image. */
  lemma DecodeWords(s: string, width: nat, height: nat, rgbs: seq<Rgb>)
    requires |rgbs| == width * height
    requires Words(s) == ["P3", Digits(width), Digits(height), "255"] + ChannelWords(rgbs)
    ensures Decode(s) == Some(Image(width, height, rgbs))
  {
    var ws := Words(s);
    assert ws[4..] == ChannelWords(rgbs);
    ParseDigits(width);
    ParseDigits(height);
    DecodeChannelWords(rgbs);
  }
}
