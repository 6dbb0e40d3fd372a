/**
  * The source's own tests of the canvas and its P3 text, stated on the model:
  * the tokens of the colours they use, the header lines, and the pixel-data
  * lines of the 10 by 2 and 5 by 3 canvases under both wrap rules.
  */
module PpmExamples {
  import opened Wrappers
  import opened Decimal
  import opened Text
  import opened Colors
  import opened Canvases
  import opened Ppm

  /** Decimal texts of the numbers the tests print. */
  lemma DigitsExamples()
    ensures Digits(0) == "0" && Digits(3) == "3" && Digits(5) == "5"
    ensures Digits(10) == "10" && Digits(20) == "20"
    ensures Digits(127) == "127" && Digits(153) == "153"
    ensures Digits(204) == "204" && Digits(255) == "255"
  {
    assert DigitChar(0) == '0' && DigitChar(1) == '1' && DigitChar(2) == '2';
    assert DigitChar(3) == '3' && DigitChar(4) == '4' && DigitChar(5) == '5';
    assert DigitChar(7) == '7' && DigitChar(9) == '9';
    assert Digits(12) == "12";
    assert Digits(15) == "15";
    assert Digits(20) == "20";
    assert Digits(25) == "25";
  }

  /** The tokens of the colours the tests write. */
  lemma TokenExamples()
    ensures ColorText(Black) == "0 0 0"
    ensures ColorText(Color(1.5, 0.0, 0.0)) == "255 0 0"
    ensures ColorText(Color(0.0, 0.5, 0.0)) == "0 127 0"
    ensures ColorText(Color(-0.5, 0.0, 1.0)) == "0 0 255"
    ensures ColorText(Color(1.0, 0.8, 0.6)) == "255 204 153"
  {
    ToByteExamples();
    DigitsExamples();
    assert GetRgb(Color(1.0, 0.8, 0.6)) == Rgb(255, 204, 153) by {
      assert 0.8 * 255.0 == 204.0 && 0.6 * 255.0 == 153.0;
    }
  }

  /** The tokens of the 5 by 3 canvas of `check_stringified_color_correctness`. */
  const Tokens5x3: seq<string> :=
    seq(15, i => if i == 0 then "255 0 0" else if i == 7 then "0 127 0" else if i == 14 then "0 0 255" else "0 0 0")

  /** The tokens of the 10 by 2 canvas of
      `splitting_long_lines_in_ppm_without_cutting_color_in_half`. */
  const Tokens10x2: seq<string> := seq(20, _ => "255 204 153")

  /** As written, the 5 by 3 canvas is laid out on four lines of 4, 4, 5
      and 2 tokens: after four tokens the counter (26) exceeds `width` times
      the length of the fifth token (25), so the fifth token opens a new line. */
  lemma Layout5x3AsWritten()
    ensures Layout(Tokens5x3, 0, 0, 5, AsWritten, "") == [
      "255 0 0 0 0 0 0 0 0 0 0 0",
      "0 0 0 0 0 0 0 0 0 0 127 0",
      "0 0 0 0 0 0 0 0 0 0 0 0 0 0 0",
      "0 0 0 0 0 255"]
  {
    AsWritten5x3From0();
    AsWritten5x3From3();
    AsWritten5x3From6();
    AsWritten5x3From9();
    AsWritten5x3From12();
  }

  lemma AsWritten5x3From0()
    ensures Layout(Tokens5x3, 0, 0, 5, AsWritten, "")
      == Layout(Tokens5x3, 3, 20, 5, AsWritten, "255 0 0 0 0 0 0 0 0")
  {
    assert Layout(Tokens5x3, 0, 0, 5, AsWritten, "")
      == Layout(Tokens5x3, 1, 8, 5, AsWritten, "255 0 0") by {
      assert Tokens5x3[0] == "255 0 0" && "" + "255 0 0" == "255 0 0";
    }
    assert Layout(Tokens5x3, 1, 8, 5, AsWritten, "255 0 0")
      == Layout(Tokens5x3, 2, 14, 5, AsWritten, "255 0 0 0 0 0") by {
      assert Tokens5x3[1] == "0 0 0" && "255 0 0" + " " + "0 0 0" == "255 0 0 0 0 0";
    }
    assert Layout(Tokens5x3, 2, 14, 5, AsWritten, "255 0 0 0 0 0")
      == Layout(Tokens5x3, 3, 20, 5, AsWritten, "255 0 0 0 0 0 0 0 0") by {
      assert Tokens5x3[2] == "0 0 0" && "255 0 0 0 0 0" + " " + "0 0 0" == "255 0 0 0 0 0 0 0 0";
    }
  }

  lemma AsWritten5x3From3()
    ensures Layout(Tokens5x3, 3, 20, 5, AsWritten, "255 0 0 0 0 0 0 0 0")
      == ["255 0 0 0 0 0 0 0 0 0 0 0"] + Layout(Tokens5x3, 6, 12, 5, AsWritten, "0 0 0 0 0 0")
  {
    assert Layout(Tokens5x3, 3, 20, 5, AsWritten, "255 0 0 0 0 0 0 0 0")
      == Layout(Tokens5x3, 4, 26, 5, AsWritten, "255 0 0 0 0 0 0 0 0 0 0 0") by {
      assert Tokens5x3[3] == "0 0 0" && "255 0 0 0 0 0 0 0 0" + " " + "0 0 0" == "255 0 0 0 0 0 0 0 0 0 0 0";
    }
    assert Layout(Tokens5x3, 4, 26, 5, AsWritten, "255 0 0 0 0 0 0 0 0 0 0 0")
      == ["255 0 0 0 0 0 0 0 0 0 0 0"] + Layout(Tokens5x3, 5, 6, 5, AsWritten, "0 0 0") by {
      assert Tokens5x3[4] == "0 0 0";
    }
    assert Layout(Tokens5x3, 5, 6, 5, AsWritten, "0 0 0")
      == Layout(Tokens5x3, 6, 12, 5, AsWritten, "0 0 0 0 0 0") by {
      assert Tokens5x3[5] == "0 0 0" && "0 0 0" + " " + "0 0 0" == "0 0 0 0 0 0";
    }
  }

  lemma AsWritten5x3From6()
    ensures Layout(Tokens5x3, 6, 12, 5, AsWritten, "0 0 0 0 0 0")
      == ["0 0 0 0 0 0 0 0 0 0 127 0"] + Layout(Tokens5x3, 9, 6, 5, AsWritten, "0 0 0")
  {
    assert Layout(Tokens5x3, 6, 12, 5, AsWritten, "0 0 0 0 0 0")
      == Layout(Tokens5x3, 7, 18, 5, AsWritten, "0 0 0 0 0 0 0 0 0") by {
      assert Tokens5x3[6] == "0 0 0" && "0 0 0 0 0 0" + " " + "0 0 0" == "0 0 0 0 0 0 0 0 0";
    }
    assert Layout(Tokens5x3, 7, 18, 5, AsWritten, "0 0 0 0 0 0 0 0 0")
      == Layout(Tokens5x3, 8, 26, 5, AsWritten, "0 0 0 0 0 0 0 0 0 0 127 0") by {
      assert Tokens5x3[7] == "0 127 0" && "0 0 0 0 0 0 0 0 0" + " " + "0 127 0" == "0 0 0 0 0 0 0 0 0 0 127 0";
    }
    assert Layout(Tokens5x3, 8, 26, 5, AsWritten, "0 0 0 0 0 0 0 0 0 0 127 0")
      == ["0 0 0 0 0 0 0 0 0 0 127 0"] + Layout(Tokens5x3, 9, 6, 5, AsWritten, "0 0 0") by {
      assert Tokens5x3[8] == "0 0 0";
    }
  }

  lemma AsWritten5x3From9()
    ensures Layout(Tokens5x3, 9, 6, 5, AsWritten, "0 0 0")
      == Layout(Tokens5x3, 12, 24, 5, AsWritten, "0 0 0 0 0 0 0 0 0 0 0 0")
  {
    assert Layout(Tokens5x3, 9, 6, 5, AsWritten, "0 0 0")
      == Layout(Tokens5x3, 10, 12, 5, AsWritten, "0 0 0 0 0 0") by {
      assert Tokens5x3[9] == "0 0 0" && "0 0 0" + " " + "0 0 0" == "0 0 0 0 0 0";
    }
    assert Layout(Tokens5x3, 10, 12, 5, AsWritten, "0 0 0 0 0 0")
      == Layout(Tokens5x3, 11, 18, 5, AsWritten, "0 0 0 0 0 0 0 0 0") by {
      assert Tokens5x3[10] == "0 0 0" && "0 0 0 0 0 0" + " " + "0 0 0" == "0 0 0 0 0 0 0 0 0";
    }
    assert Layout(Tokens5x3, 11, 18, 5, AsWritten, "0 0 0 0 0 0 0 0 0")
      == Layout(Tokens5x3, 12, 24, 5, AsWritten, "0 0 0 0 0 0 0 0 0 0 0 0") by {
      assert Tokens5x3[11] == "0 0 0" && "0 0 0 0 0 0 0 0 0" + " " + "0 0 0" == "0 0 0 0 0 0 0 0 0 0 0 0";
    }
  }

  lemma AsWritten5x3From12()
    ensures Layout(Tokens5x3, 12, 24, 5, AsWritten, "0 0 0 0 0 0 0 0 0 0 0 0")
      == ["0 0 0 0 0 0 0 0 0 0 0 0 0 0 0"] + ["0 0 0 0 0 255"]
  {
    assert Layout(Tokens5x3, 12, 24, 5, AsWritten, "0 0 0 0 0 0 0 0 0 0 0 0")
      == Layout(Tokens5x3, 13, 30, 5, AsWritten, "0 0 0 0 0 0 0 0 0 0 0 0 0 0 0") by {
      assert Tokens5x3[12] == "0 0 0" && "0 0 0 0 0 0 0 0 0 0 0 0" + " " + "0 0 0" == "0 0 0 0 0 0 0 0 0 0 0 0 0 0 0";
    }
    assert Layout(Tokens5x3, 13, 30, 5, AsWritten, "0 0 0 0 0 0 0 0 0 0 0 0 0 0 0")
      == ["0 0 0 0 0 0 0 0 0 0 0 0 0 0 0"] + Layout(Tokens5x3, 14, 6, 5, AsWritten, "0 0 0") by {
      assert Tokens5x3[13] == "0 0 0";
    }
    assert Layout(Tokens5x3, 14, 6, 5, AsWritten, "0 0 0")
      == Layout(Tokens5x3, 15, 14, 5, AsWritten, "0 0 0 0 0 255") by {
      assert Tokens5x3[14] == "0 0 255" && "0 0 0" + " " + "0 0 255" == "0 0 0 0 0 255";
    }
  }

  /** With rows aligned, the 5 by 3 canvas is laid out one row per line,
      as `check_stringified_color_correctness` expects. */
  lemma Layout5x3RowAligned()
    ensures Layout(Tokens5x3, 0, 0, 5, RowAligned, "") == [
      "255 0 0 0 0 0 0 0 0 0 0 0 0 0 0",
      "0 0 0 0 0 0 0 127 0 0 0 0 0 0 0",
      "0 0 0 0 0 0 0 0 0 0 0 0 0 0 255"]
  {
    RowAligned5x3From0();
    RowAligned5x3From3();
    RowAligned5x3From6();
    RowAligned5x3From9();
    RowAligned5x3From12();
  }

  lemma RowAligned5x3From0()
    ensures Layout(Tokens5x3, 0, 0, 5, RowAligned, "")
      == Layout(Tokens5x3, 3, 20, 5, RowAligned, "255 0 0 0 0 0 0 0 0")
  {
    assert Layout(Tokens5x3, 0, 0, 5, RowAligned, "")
      == Layout(Tokens5x3, 1, 8, 5, RowAligned, "255 0 0") by {
      assert Tokens5x3[0] == "255 0 0" && "" + "255 0 0" == "255 0 0";
    }
    assert Layout(Tokens5x3, 1, 8, 5, RowAligned, "255 0 0")
      == Layout(Tokens5x3, 2, 14, 5, RowAligned, "255 0 0 0 0 0") by {
      assert Tokens5x3[1] == "0 0 0" && "255 0 0" + " " + "0 0 0" == "255 0 0 0 0 0";
    }
    assert Layout(Tokens5x3, 2, 14, 5, RowAligned, "255 0 0 0 0 0")
      == Layout(Tokens5x3, 3, 20, 5, RowAligned, "255 0 0 0 0 0 0 0 0") by {
      assert Tokens5x3[2] == "0 0 0" && "255 0 0 0 0 0" + " " + "0 0 0" == "255 0 0 0 0 0 0 0 0";
    }
  }

  lemma RowAligned5x3From3()
    ensures Layout(Tokens5x3, 3, 20, 5, RowAligned, "255 0 0 0 0 0 0 0 0")
      == ["255 0 0 0 0 0 0 0 0 0 0 0 0 0 0"] + Layout(Tokens5x3, 6, 6, 5, RowAligned, "0 0 0")
  {
    assert Layout(Tokens5x3, 3, 20, 5, RowAligned, "255 0 0 0 0 0 0 0 0")
      == Layout(Tokens5x3, 4, 26, 5, RowAligned, "255 0 0 0 0 0 0 0 0 0 0 0") by {
      assert Tokens5x3[3] == "0 0 0" && "255 0 0 0 0 0 0 0 0" + " " + "0 0 0" == "255 0 0 0 0 0 0 0 0 0 0 0";
    }
    assert Layout(Tokens5x3, 4, 26, 5, RowAligned, "255 0 0 0 0 0 0 0 0 0 0 0")
      == Layout(Tokens5x3, 5, 32, 5, RowAligned, "255 0 0 0 0 0 0 0 0 0 0 0 0 0 0") by {
      assert Tokens5x3[4] == "0 0 0" && "255 0 0 0 0 0 0 0 0 0 0 0" + " " + "0 0 0" == "255 0 0 0 0 0 0 0 0 0 0 0 0 0 0";
    }
    assert Layout(Tokens5x3, 5, 32, 5, RowAligned, "255 0 0 0 0 0 0 0 0 0 0 0 0 0 0")
      == ["255 0 0 0 0 0 0 0 0 0 0 0 0 0 0"] + Layout(Tokens5x3, 6, 6, 5, RowAligned, "0 0 0") by {
      assert Tokens5x3[5] == "0 0 0";
    }
  }

  lemma RowAligned5x3From6()
    ensures Layout(Tokens5x3, 6, 6, 5, RowAligned, "0 0 0")
      == Layout(Tokens5x3, 9, 26, 5, RowAligned, "0 0 0 0 0 0 0 127 0 0 0 0")
  {
    assert Layout(Tokens5x3, 6, 6, 5, RowAligned, "0 0 0")
      == Layout(Tokens5x3, 7, 12, 5, RowAligned, "0 0 0 0 0 0") by {
      assert Tokens5x3[6] == "0 0 0" && "0 0 0" + " " + "0 0 0" == "0 0 0 0 0 0";
    }
    assert Layout(Tokens5x3, 7, 12, 5, RowAligned, "0 0 0 0 0 0")
      == Layout(Tokens5x3, 8, 20, 5, RowAligned, "0 0 0 0 0 0 0 127 0") by {
      assert Tokens5x3[7] == "0 127 0" && "0 0 0 0 0 0" + " " + "0 127 0" == "0 0 0 0 0 0 0 127 0";
    }
    assert Layout(Tokens5x3, 8, 20, 5, RowAligned, "0 0 0 0 0 0 0 127 0")
      == Layout(Tokens5x3, 9, 26, 5, RowAligned, "0 0 0 0 0 0 0 127 0 0 0 0") by {
      assert Tokens5x3[8] == "0 0 0" && "0 0 0 0 0 0 0 127 0" + " " + "0 0 0" == "0 0 0 0 0 0 0 127 0 0 0 0";
    }
  }

  lemma RowAligned5x3From9()
    ensures Layout(Tokens5x3, 9, 26, 5, RowAligned, "0 0 0 0 0 0 0 127 0 0 0 0")
      == ["0 0 0 0 0 0 0 127 0 0 0 0 0 0 0"] + Layout(Tokens5x3, 12, 12, 5, RowAligned, "0 0 0 0 0 0")
  {
    assert Layout(Tokens5x3, 9, 26, 5, RowAligned, "0 0 0 0 0 0 0 127 0 0 0 0")
      == Layout(Tokens5x3, 10, 32, 5, RowAligned, "0 0 0 0 0 0 0 127 0 0 0 0 0 0 0") by {
      assert Tokens5x3[9] == "0 0 0" && "0 0 0 0 0 0 0 127 0 0 0 0" + " " + "0 0 0" == "0 0 0 0 0 0 0 127 0 0 0 0 0 0 0";
    }
    assert Layout(Tokens5x3, 10, 32, 5, RowAligned, "0 0 0 0 0 0 0 127 0 0 0 0 0 0 0")
      == ["0 0 0 0 0 0 0 127 0 0 0 0 0 0 0"] + Layout(Tokens5x3, 11, 6, 5, RowAligned, "0 0 0") by {
      assert Tokens5x3[10] == "0 0 0";
    }
    assert Layout(Tokens5x3, 11, 6, 5, RowAligned, "0 0 0")
      == Layout(Tokens5x3, 12, 12, 5, RowAligned, "0 0 0 0 0 0") by {
      assert Tokens5x3[11] == "0 0 0" && "0 0 0" + " " + "0 0 0" == "0 0 0 0 0 0";
    }
  }

  lemma RowAligned5x3From12()
    ensures Layout(Tokens5x3, 12, 12, 5, RowAligned, "0 0 0 0 0 0")
      == ["0 0 0 0 0 0 0 0 0 0 0 0 0 0 255"]
  {
    assert Layout(Tokens5x3, 12, 12, 5, RowAligned, "0 0 0 0 0 0")
      == Layout(Tokens5x3, 13, 18, 5, RowAligned, "0 0 0 0 0 0 0 0 0") by {
      assert Tokens5x3[12] == "0 0 0" && "0 0 0 0 0 0" + " " + "0 0 0" == "0 0 0 0 0 0 0 0 0";
    }
    assert Layout(Tokens5x3, 13, 18, 5, RowAligned, "0 0 0 0 0 0 0 0 0")
      == Layout(Tokens5x3, 14, 24, 5, RowAligned, "0 0 0 0 0 0 0 0 0 0 0 0") by {
      assert Tokens5x3[13] == "0 0 0" && "0 0 0 0 0 0 0 0 0" + " " + "0 0 0" == "0 0 0 0 0 0 0 0 0 0 0 0";
    }
    assert Layout(Tokens5x3, 14, 24, 5, RowAligned, "0 0 0 0 0 0 0 0 0 0 0 0")
      == Layout(Tokens5x3, 15, 32, 5, RowAligned, "0 0 0 0 0 0 0 0 0 0 0 0 0 0 255") by {
      assert Tokens5x3[14] == "0 0 255" && "0 0 0 0 0 0 0 0 0 0 0 0" + " " + "0 0 255" == "0 0 0 0 0 0 0 0 0 0 0 0 0 0 255";
    }
  }

  /** The 10 by 2 canvas filled with (1, 0.8, 0.6) is laid out five tokens
      per line: the sixth token would reach the 69 threshold. */
  lemma Layout10x2AsWritten()
    ensures Layout(Tokens10x2, 0, 0, 10, AsWritten, "") == [
      "255 204 153 255 204 153 255 204 153 255 204 153 255 204 153",
      "255 204 153 255 204 153 255 204 153 255 204 153 255 204 153",
      "255 204 153 255 204 153 255 204 153 255 204 153 255 204 153",
      "255 204 153 255 204 153 255 204 153 255 204 153 255 204 153"]
  {
    AsWritten10x2From0();
    AsWritten10x2From2();
    AsWritten10x2From4();
    AsWritten10x2From6();
    AsWritten10x2From8();
    AsWritten10x2From10();
    AsWritten10x2From12();
    AsWritten10x2From14();
    AsWritten10x2From16();
    AsWritten10x2From18();
  }

  lemma AsWritten10x2From0()
    ensures Layout(Tokens10x2, 0, 0, 10, AsWritten, "")
      == Layout(Tokens10x2, 2, 24, 10, AsWritten, "255 204 153 255 204 153")
  {
    assert Layout(Tokens10x2, 0, 0, 10, AsWritten, "")
      == Layout(Tokens10x2, 1, 12, 10, AsWritten, "255 204 153") by {
      assert Tokens10x2[0] == "255 204 153" && "" + "255 204 153" == "255 204 153";
    }
    assert Layout(Tokens10x2, 1, 12, 10, AsWritten, "255 204 153")
      == Layout(Tokens10x2, 2, 24, 10, AsWritten, "255 204 153 255 204 153") by {
      assert Tokens10x2[1] == "255 204 153" && "255 204 153" + " " + "255 204 153" == "255 204 153 255 204 153";
    }
  }

  lemma AsWritten10x2From2()
    ensures Layout(Tokens10x2, 2, 24, 10, AsWritten, "255 204 153 255 204 153")
      == Layout(Tokens10x2, 4, 48, 10, AsWritten, "255 204 153 255 204 153 255 204 153 255 204 153")
  {
    assert Layout(Tokens10x2, 2, 24, 10, AsWritten, "255 204 153 255 204 153")
      == Layout(Tokens10x2, 3, 36, 10, AsWritten, "255 204 153 255 204 153 255 204 153") by {
      assert Tokens10x2[2] == "255 204 153" && "255 204 153 255 204 153" + " " + "255 204 153" == "255 204 153 255 204 153 255 204 153";
    }
    assert Layout(Tokens10x2, 3, 36, 10, AsWritten, "255 204 153 255 204 153 255 204 153")
      == Layout(Tokens10x2, 4, 48, 10, AsWritten, "255 204 153 255 204 153 255 204 153 255 204 153") by {
      assert Tokens10x2[3] == "255 204 153" && "255 204 153 255 204 153 255 204 153" + " " + "255 204 153" == "255 204 153 255 204 153 255 204 153 255 204 153";
    }
  }

  lemma AsWritten10x2From4()
    ensures Layout(Tokens10x2, 4, 48, 10, AsWritten, "255 204 153 255 204 153 255 204 153 255 204 153")
      == ["255 204 153 255 204 153 255 204 153 255 204 153 255 204 153"] + Layout(Tokens10x2, 6, 12, 10, AsWritten, "255 204 153")
  {
    assert Layout(Tokens10x2, 4, 48, 10, AsWritten, "255 204 153 255 204 153 255 204 153 255 204 153")
      == Layout(Tokens10x2, 5, 60, 10, AsWritten, "255 204 153 255 204 153 255 204 153 255 204 153 255 204 153") by {
      assert Tokens10x2[4] == "255 204 153" && "255 204 153 255 204 153 255 204 153 255 204 153" + " " + "255 204 153" == "255 204 153 255 204 153 255 204 153 255 204 153 255 204 153";
    }
    assert Layout(Tokens10x2, 5, 60, 10, AsWritten, "255 204 153 255 204 153 255 204 153 255 204 153 255 204 153")
      == ["255 204 153 255 204 153 255 204 153 255 204 153 255 204 153"] + Layout(Tokens10x2, 6, 12, 10, AsWritten, "255 204 153") by {
      assert Tokens10x2[5] == "255 204 153";
    }
  }

  lemma AsWritten10x2From6()
    ensures Layout(Tokens10x2, 6, 12, 10, AsWritten, "255 204 153")
      == Layout(Tokens10x2, 8, 36, 10, AsWritten, "255 204 153 255 204 153 255 204 153")
  {
    assert Layout(Tokens10x2, 6, 12, 10, AsWritten, "255 204 153")
      == Layout(Tokens10x2, 7, 24, 10, AsWritten, "255 204 153 255 204 153") by {
      assert Tokens10x2[6] == "255 204 153" && "255 204 153" + " " + "255 204 153" == "255 204 153 255 204 153";
    }
    assert Layout(Tokens10x2, 7, 24, 10, AsWritten, "255 204 153 255 204 153")
      == Layout(Tokens10x2, 8, 36, 10, AsWritten, "255 204 153 255 204 153 255 204 153") by {
      assert Tokens10x2[7] == "255 204 153" && "255 204 153 255 204 153" + " " + "255 204 153" == "255 204 153 255 204 153 255 204 153";
    }
  }

  lemma AsWritten10x2From8()
    ensures Layout(Tokens10x2, 8, 36, 10, AsWritten, "255 204 153 255 204 153 255 204 153")
      == Layout(Tokens10x2, 10, 60, 10, AsWritten, "255 204 153 255 204 153 255 204 153 255 204 153 255 204 153")
  {
    assert Layout(Tokens10x2, 8, 36, 10, AsWritten, "255 204 153 255 204 153 255 204 153")
      == Layout(Tokens10x2, 9, 48, 10, AsWritten, "255 204 153 255 204 153 255 204 153 255 204 153") by {
      assert Tokens10x2[8] == "255 204 153" && "255 204 153 255 204 153 255 204 153" + " " + "255 204 153" == "255 204 153 255 204 153 255 204 153 255 204 153";
    }
    assert Layout(Tokens10x2, 9, 48, 10, AsWritten, "255 204 153 255 204 153 255 204 153 255 204 153")
      == Layout(Tokens10x2, 10, 60, 10, AsWritten, "255 204 153 255 204 153 255 204 153 255 204 153 255 204 153") by {
      assert Tokens10x2[9] == "255 204 153" && "255 204 153 255 204 153 255 204 153 255 204 153" + " " + "255 204 153" == "255 204 153 255 204 153 255 204 153 255 204 153 255 204 153";
    }
  }

  lemma AsWritten10x2From10()
    ensures Layout(Tokens10x2, 10, 60, 10, AsWritten, "255 204 153 255 204 153 255 204 153 255 204 153 255 204 153")
      == ["255 204 153 255 204 153 255 204 153 255 204 153 255 204 153"] + Layout(Tokens10x2, 12, 24, 10, AsWritten, "255 204 153 255 204 153")
  {
    assert Layout(Tokens10x2, 10, 60, 10, AsWritten, "255 204 153 255 204 153 255 204 153 255 204 153 255 204 153")
      == ["255 204 153 255 204 153 255 204 153 255 204 153 255 204 153"] + Layout(Tokens10x2, 11, 12, 10, AsWritten, "255 204 153") by {
      assert Tokens10x2[10] == "255 204 153";
    }
    assert Layout(Tokens10x2, 11, 12, 10, AsWritten, "255 204 153")
      == Layout(Tokens10x2, 12, 24, 10, AsWritten, "255 204 153 255 204 153") by {
      assert Tokens10x2[11] == "255 204 153" && "255 204 153" + " " + "255 204 153" == "255 204 153 255 204 153";
    }
  }

  lemma AsWritten10x2From12()
    ensures Layout(Tokens10x2, 12, 24, 10, AsWritten, "255 204 153 255 204 153")
      == Layout(Tokens10x2, 14, 48, 10, AsWritten, "255 204 153 255 204 153 255 204 153 255 204 153")
  {
    assert Layout(Tokens10x2, 12, 24, 10, AsWritten, "255 204 153 255 204 153")
      == Layout(Tokens10x2, 13, 36, 10, AsWritten, "255 204 153 255 204 153 255 204 153") by {
      assert Tokens10x2[12] == "255 204 153" && "255 204 153 255 204 153" + " " + "255 204 153" == "255 204 153 255 204 153 255 204 153";
    }
    assert Layout(Tokens10x2, 13, 36, 10, AsWritten, "255 204 153 255 204 153 255 204 153")
      == Layout(Tokens10x2, 14, 48, 10, AsWritten, "255 204 153 255 204 153 255 204 153 255 204 153") by {
      assert Tokens10x2[13] == "255 204 153" && "255 204 153 255 204 153 255 204 153" + " " + "255 204 153" == "255 204 153 255 204 153 255 204 153 255 204 153";
    }
  }

  lemma AsWritten10x2From14()
    ensures Layout(Tokens10x2, 14, 48, 10, AsWritten, "255 204 153 255 204 153 255 204 153 255 204 153")
      == ["255 204 153 255 204 153 255 204 153 255 204 153 255 204 153"] + Layout(Tokens10x2, 16, 12, 10, AsWritten, "255 204 153")
  {
    assert Layout(Tokens10x2, 14, 48, 10, AsWritten, "255 204 153 255 204 153 255 204 153 255 204 153")
      == Layout(Tokens10x2, 15, 60, 10, AsWritten, "255 204 153 255 204 153 255 204 153 255 204 153 255 204 153") by {
      assert Tokens10x2[14] == "255 204 153" && "255 204 153 255 204 153 255 204 153 255 204 153" + " " + "255 204 153" == "255 204 153 255 204 153 255 204 153 255 204 153 255 204 153";
    }
    assert Layout(Tokens10x2, 15, 60, 10, AsWritten, "255 204 153 255 204 153 255 204 153 255 204 153 255 204 153")
      == ["255 204 153 255 204 153 255 204 153 255 204 153 255 204 153"] + Layout(Tokens10x2, 16, 12, 10, AsWritten, "255 204 153") by {
      assert Tokens10x2[15] == "255 204 153";
    }
  }

  lemma AsWritten10x2From16()
    ensures Layout(Tokens10x2, 16, 12, 10, AsWritten, "255 204 153")
      == Layout(Tokens10x2, 18, 36, 10, AsWritten, "255 204 153 255 204 153 255 204 153")
  {
    assert Layout(Tokens10x2, 16, 12, 10, AsWritten, "255 204 153")
      == Layout(Tokens10x2, 17, 24, 10, AsWritten, "255 204 153 255 204 153") by {
      assert Tokens10x2[16] == "255 204 153" && "255 204 153" + " " + "255 204 153" == "255 204 153 255 204 153";
    }
    assert Layout(Tokens10x2, 17, 24, 10, AsWritten, "255 204 153 255 204 153")
      == Layout(Tokens10x2, 18, 36, 10, AsWritten, "255 204 153 255 204 153 255 204 153") by {
      assert Tokens10x2[17] == "255 204 153" && "255 204 153 255 204 153" + " " + "255 204 153" == "255 204 153 255 204 153 255 204 153";
    }
  }

  lemma AsWritten10x2From18()
    ensures Layout(Tokens10x2, 18, 36, 10, AsWritten, "255 204 153 255 204 153 255 204 153")
      == ["255 204 153 255 204 153 255 204 153 255 204 153 255 204 153"]
  {
    assert Layout(Tokens10x2, 18, 36, 10, AsWritten, "255 204 153 255 204 153 255 204 153")
      == Layout(Tokens10x2, 19, 48, 10, AsWritten, "255 204 153 255 204 153 255 204 153 255 204 153") by {
      assert Tokens10x2[18] == "255 204 153" && "255 204 153 255 204 153 255 204 153" + " " + "255 204 153" == "255 204 153 255 204 153 255 204 153 255 204 153";
    }
    assert Layout(Tokens10x2, 19, 48, 10, AsWritten, "255 204 153 255 204 153 255 204 153 255 204 153")
      == Layout(Tokens10x2, 20, 60, 10, AsWritten, "255 204 153 255 204 153 255 204 153 255 204 153 255 204 153") by {
      assert Tokens10x2[19] == "255 204 153" && "255 204 153 255 204 153 255 204 153 255 204 153" + " " + "255 204 153" == "255 204 153 255 204 153 255 204 153 255 204 153 255 204 153";
    }
  }

  /** Aligning rows does not change the layout of the 10 by 2 canvas. */
  lemma Layout10x2RowAligned()
    ensures Layout(Tokens10x2, 0, 0, 10, RowAligned, "") == [
      "255 204 153 255 204 153 255 204 153 255 204 153 255 204 153",
      "255 204 153 255 204 153 255 204 153 255 204 153 255 204 153",
      "255 204 153 255 204 153 255 204 153 255 204 153 255 204 153",
      "255 204 153 255 204 153 255 204 153 255 204 153 255 204 153"]
  {
    RowAligned10x2From0();
    RowAligned10x2From2();
    RowAligned10x2From4();
    RowAligned10x2From6();
    RowAligned10x2From8();
    RowAligned10x2From10();
    RowAligned10x2From12();
    RowAligned10x2From14();
    RowAligned10x2From16();
    RowAligned10x2From18();
  }

  lemma RowAligned10x2From0()
    ensures Layout(Tokens10x2, 0, 0, 10, RowAligned, "")
      == Layout(Tokens10x2, 2, 24, 10, RowAligned, "255 204 153 255 204 153")
  {
    assert Layout(Tokens10x2, 0, 0, 10, RowAligned, "")
      == Layout(Tokens10x2, 1, 12, 10, RowAligned, "255 204 153") by {
      assert Tokens10x2[0] == "255 204 153" && "" + "255 204 153" == "255 204 153";
    }
    assert Layout(Tokens10x2, 1, 12, 10, RowAligned, "255 204 153")
      == Layout(Tokens10x2, 2, 24, 10, RowAligned, "255 204 153 255 204 153") by {
      assert Tokens10x2[1] == "255 204 153" && "255 204 153" + " " + "255 204 153" == "255 204 153 255 204 153";
    }
  }

  lemma RowAligned10x2From2()
    ensures Layout(Tokens10x2, 2, 24, 10, RowAligned, "255 204 153 255 204 153")
      == Layout(Tokens10x2, 4, 48, 10, RowAligned, "255 204 153 255 204 153 255 204 153 255 204 153")
  {
    assert Layout(Tokens10x2, 2, 24, 10, RowAligned, "255 204 153 255 204 153")
      == Layout(Tokens10x2, 3, 36, 10, RowAligned, "255 204 153 255 204 153 255 204 153") by {
      assert Tokens10x2[2] == "255 204 153" && "255 204 153 255 204 153" + " " + "255 204 153" == "255 204 153 255 204 153 255 204 153";
    }
    assert Layout(Tokens10x2, 3, 36, 10, RowAligned, "255 204 153 255 204 153 255 204 153")
      == Layout(Tokens10x2, 4, 48, 10, RowAligned, "255 204 153 255 204 153 255 204 153 255 204 153") by {
      assert Tokens10x2[3] == "255 204 153" && "255 204 153 255 204 153 255 204 153" + " " + "255 204 153" == "255 204 153 255 204 153 255 204 153 255 204 153";
    }
  }

  lemma RowAligned10x2From4()
    ensures Layout(Tokens10x2, 4, 48, 10, RowAligned, "255 204 153 255 204 153 255 204 153 255 204 153")
      == ["255 204 153 255 204 153 255 204 153 255 204 153 255 204 153"] + Layout(Tokens10x2, 6, 12, 10, RowAligned, "255 204 153")
  {
    assert Layout(Tokens10x2, 4, 48, 10, RowAligned, "255 204 153 255 204 153 255 204 153 255 204 153")
      == Layout(Tokens10x2, 5, 60, 10, RowAligned, "255 204 153 255 204 153 255 204 153 255 204 153 255 204 153") by {
      assert Tokens10x2[4] == "255 204 153" && "255 204 153 255 204 153 255 204 153 255 204 153" + " " + "255 204 153" == "255 204 153 255 204 153 255 204 153 255 204 153 255 204 153";
    }
    assert Layout(Tokens10x2, 5, 60, 10, RowAligned, "255 204 153 255 204 153 255 204 153 255 204 153 255 204 153")
      == ["255 204 153 255 204 153 255 204 153 255 204 153 255 204 153"] + Layout(Tokens10x2, 6, 12, 10, RowAligned, "255 204 153") by {
      assert Tokens10x2[5] == "255 204 153";
    }
  }

  lemma RowAligned10x2From6()
    ensures Layout(Tokens10x2, 6, 12, 10, RowAligned, "255 204 153")
      == Layout(Tokens10x2, 8, 36, 10, RowAligned, "255 204 153 255 204 153 255 204 153")
  {
    assert Layout(Tokens10x2, 6, 12, 10, RowAligned, "255 204 153")
      == Layout(Tokens10x2, 7, 24, 10, RowAligned, "255 204 153 255 204 153") by {
      assert Tokens10x2[6] == "255 204 153" && "255 204 153" + " " + "255 204 153" == "255 204 153 255 204 153";
    }
    assert Layout(Tokens10x2, 7, 24, 10, RowAligned, "255 204 153 255 204 153")
      == Layout(Tokens10x2, 8, 36, 10, RowAligned, "255 204 153 255 204 153 255 204 153") by {
      assert Tokens10x2[7] == "255 204 153" && "255 204 153 255 204 153" + " " + "255 204 153" == "255 204 153 255 204 153 255 204 153";
    }
  }

  lemma RowAligned10x2From8()
    ensures Layout(Tokens10x2, 8, 36, 10, RowAligned, "255 204 153 255 204 153 255 204 153")
      == Layout(Tokens10x2, 10, 60, 10, RowAligned, "255 204 153 255 204 153 255 204 153 255 204 153 255 204 153")
  {
    assert Layout(Tokens10x2, 8, 36, 10, RowAligned, "255 204 153 255 204 153 255 204 153")
      == Layout(Tokens10x2, 9, 48, 10, RowAligned, "255 204 153 255 204 153 255 204 153 255 204 153") by {
      assert Tokens10x2[8] == "255 204 153" && "255 204 153 255 204 153 255 204 153" + " " + "255 204 153" == "255 204 153 255 204 153 255 204 153 255 204 153";
    }
    assert Layout(Tokens10x2, 9, 48, 10, RowAligned, "255 204 153 255 204 153 255 204 153 255 204 153")
      == Layout(Tokens10x2, 10, 60, 10, RowAligned, "255 204 153 255 204 153 255 204 153 255 204 153 255 204 153") by {
      assert Tokens10x2[9] == "255 204 153" && "255 204 153 255 204 153 255 204 153 255 204 153" + " " + "255 204 153" == "255 204 153 255 204 153 255 204 153 255 204 153 255 204 153";
    }
  }

  lemma RowAligned10x2From10()
    ensures Layout(Tokens10x2, 10, 60, 10, RowAligned, "255 204 153 255 204 153 255 204 153 255 204 153 255 204 153")
      == ["255 204 153 255 204 153 255 204 153 255 204 153 255 204 153"] + Layout(Tokens10x2, 12, 24, 10, RowAligned, "255 204 153 255 204 153")
  {
    assert Layout(Tokens10x2, 10, 60, 10, RowAligned, "255 204 153 255 204 153 255 204 153 255 204 153 255 204 153")
      == ["255 204 153 255 204 153 255 204 153 255 204 153 255 204 153"] + Layout(Tokens10x2, 11, 12, 10, RowAligned, "255 204 153") by {
      assert Tokens10x2[10] == "255 204 153";
    }
    assert Layout(Tokens10x2, 11, 12, 10, RowAligned, "255 204 153")
      == Layout(Tokens10x2, 12, 24, 10, RowAligned, "255 204 153 255 204 153") by {
      assert Tokens10x2[11] == "255 204 153" && "255 204 153" + " " + "255 204 153" == "255 204 153 255 204 153";
    }
  }

  lemma RowAligned10x2From12()
    ensures Layout(Tokens10x2, 12, 24, 10, RowAligned, "255 204 153 255 204 153")
      == Layout(Tokens10x2, 14, 48, 10, RowAligned, "255 204 153 255 204 153 255 204 153 255 204 153")
  {
    assert Layout(Tokens10x2, 12, 24, 10, RowAligned, "255 204 153 255 204 153")
      == Layout(Tokens10x2, 13, 36, 10, RowAligned, "255 204 153 255 204 153 255 204 153") by {
      assert Tokens10x2[12] == "255 204 153" && "255 204 153 255 204 153" + " " + "255 204 153" == "255 204 153 255 204 153 255 204 153";
    }
    assert Layout(Tokens10x2, 13, 36, 10, RowAligned, "255 204 153 255 204 153 255 204 153")
      == Layout(Tokens10x2, 14, 48, 10, RowAligned, "255 204 153 255 204 153 255 204 153 255 204 153") by {
      assert Tokens10x2[13] == "255 204 153" && "255 204 153 255 204 153 255 204 153" + " " + "255 204 153" == "255 204 153 255 204 153 255 204 153 255 204 153";
    }
  }

  lemma RowAligned10x2From14()
    ensures Layout(Tokens10x2, 14, 48, 10, RowAligned, "255 204 153 255 204 153 255 204 153 255 204 153")
      == ["255 204 153 255 204 153 255 204 153 255 204 153 255 204 153"] + Layout(Tokens10x2, 16, 12, 10, RowAligned, "255 204 153")
  {
    assert Layout(Tokens10x2, 14, 48, 10, RowAligned, "255 204 153 255 204 153 255 204 153 255 204 153")
      == Layout(Tokens10x2, 15, 60, 10, RowAligned, "255 204 153 255 204 153 255 204 153 255 204 153 255 204 153") by {
      assert Tokens10x2[14] == "255 204 153" && "255 204 153 255 204 153 255 204 153 255 204 153" + " " + "255 204 153" == "255 204 153 255 204 153 255 204 153 255 204 153 255 204 153";
    }
    assert Layout(Tokens10x2, 15, 60, 10, RowAligned, "255 204 153 255 204 153 255 204 153 255 204 153 255 204 153")
      == ["255 204 153 255 204 153 255 204 153 255 204 153 255 204 153"] + Layout(Tokens10x2, 16, 12, 10, RowAligned, "255 204 153") by {
      assert Tokens10x2[15] == "255 204 153";
    }
  }

  lemma RowAligned10x2From16()
    ensures Layout(Tokens10x2, 16, 12, 10, RowAligned, "255 204 153")
      == Layout(Tokens10x2, 18, 36, 10, RowAligned, "255 204 153 255 204 153 255 204 153")
  {
    assert Layout(Tokens10x2, 16, 12, 10, RowAligned, "255 204 153")
      == Layout(Tokens10x2, 17, 24, 10, RowAligned, "255 204 153 255 204 153") by {
      assert Tokens10x2[16] == "255 204 153" && "255 204 153" + " " + "255 204 153" == "255 204 153 255 204 153";
    }
    assert Layout(Tokens10x2, 17, 24, 10, RowAligned, "255 204 153 255 204 153")
      == Layout(Tokens10x2, 18, 36, 10, RowAligned, "255 204 153 255 204 153 255 204 153") by {
      assert Tokens10x2[17] == "255 204 153" && "255 204 153 255 204 153" + " " + "255 204 153" == "255 204 153 255 204 153 255 204 153";
    }
  }

  lemma RowAligned10x2From18()
    ensures Layout(Tokens10x2, 18, 36, 10, RowAligned, "255 204 153 255 204 153 255 204 153")
      == ["255 204 153 255 204 153 255 204 153 255 204 153 255 204 153"]
  {
    assert Layout(Tokens10x2, 18, 36, 10, RowAligned, "255 204 153 255 204 153 255 204 153")
      == Layout(Tokens10x2, 19, 48, 10, RowAligned, "255 204 153 255 204 153 255 204 153 255 204 153") by {
      assert Tokens10x2[18] == "255 204 153" && "255 204 153 255 204 153 255 204 153" + " " + "255 204 153" == "255 204 153 255 204 153 255 204 153 255 204 153";
    }
    assert Layout(Tokens10x2, 19, 48, 10, RowAligned, "255 204 153 255 204 153 255 204 153 255 204 153")
      == Layout(Tokens10x2, 20, 60, 10, RowAligned, "255 204 153 255 204 153 255 204 153 255 204 153 255 204 153") by {
      assert Tokens10x2[19] == "255 204 153" && "255 204 153 255 204 153 255 204 153 255 204 153" + " " + "255 204 153" == "255 204 153 255 204 153 255 204 153 255 204 153 255 204 153";
    }
  }

  /** The cells of the 5 by 3 canvas after the three writes of
      `check_stringified_color_correctness`. */
  const Cells5x3: seq<Color> :=
    seq(15, i => if i == 0 then Color(1.5, 0.0, 0.0) else if i == 7 then Color(0.0, 0.5, 0.0)
                 else if i == 14 then Color(-0.5, 0.0, 1.0) else Black)

  lemma TokensOfCells5x3()
    ensures Tokens(Cells5x3) == Tokens5x3
  {
    TokenExamples();
  }

  lemma TokensOfCells10x2(cells: seq<Color>)
    requires |cells| == 20 && forall i :: 0 <= i < 20 ==> cells[i] == Color(1.0, 0.8, 0.6)
    ensures Tokens(cells) == Tokens10x2
  {
    TokenExamples();
  }

  /** The header lines of the text of a 10 by 20 canvas. */
  lemma HeaderLines10x20(width: nat, height: nat, cells: seq<Color>)
    requires width == 10 && height == 20
    ensures var lines := Lines(PpmText(width, height, cells, AsWritten));
      |lines| >= 3 && lines[..3] == ["P3", "10 20", "255"]
  {
    HeaderFirst(width, height, cells, AsWritten);
    assert Digits(width) + " " + Digits(height) == "10 20" by {
      DigitsExamples();
    }
  }

  /** The pixel-data lines of the text of the 5 by 3 canvas, as written.
      The dimensions are parameters pinned by the precondition rather than
      literals (literals make the solver unfold the decimal texts); the
      height appears only in the header, so the data lines do not depend
      on it. */
  lemma DataLines5x3(width: nat, height: nat)
    requires width == 5
    ensures var lines := Lines(PpmText(width, height, Cells5x3, AsWritten));
      |lines| == 7 && lines[3..] == [
        "255 0 0 0 0 0 0 0 0 0 0 0",
        "0 0 0 0 0 0 0 0 0 0 127 0",
        "0 0 0 0 0 0 0 0 0 0 0 0 0 0 0",
        "0 0 0 0 0 255"]
  {
    PpmLayout(width, height, Cells5x3, AsWritten);
    TokensOfCells5x3();
    Layout5x3AsWritten();
  }

  /** The pixel-data lines of the text of the same canvas under the
      row-aligned rule: one canvas row per line, as the test expects (the
      height, again, only enters the header). */
  lemma DataLines5x3RowAligned(width: nat, height: nat)
    requires width == 5
    ensures var lines := Lines(PpmText(width, height, Cells5x3, RowAligned));
      |lines| == 6 && lines[3..] == [
        "255 0 0 0 0 0 0 0 0 0 0 0 0 0 0",
        "0 0 0 0 0 0 0 127 0 0 0 0 0 0 0",
        "0 0 0 0 0 0 0 0 0 0 0 0 0 0 255"]
  {
    PpmLayout(width, height, Cells5x3, RowAligned);
    TokensOfCells5x3();
    Layout5x3RowAligned();
  }

  /** The pixel-data lines of the text of the 10 by 2 canvas filled with
      (1, 0.8, 0.6); the height only enters the header. */
  lemma DataLines10x2(width: nat, height: nat, cells: seq<Color>)
    requires width == 10
    requires |cells| == 20 && forall i :: 0 <= i < 20 ==> cells[i] == Color(1.0, 0.8, 0.6)
    ensures var lines := Lines(PpmText(width, height, cells, AsWritten));
      |lines| == 7 && lines[3..] == [
        "255 204 153 255 204 153 255 204 153 255 204 153 255 204 153",
        "255 204 153 255 204 153 255 204 153 255 204 153 255 204 153",
        "255 204 153 255 204 153 255 204 153 255 204 153 255 204 153",
        "255 204 153 255 204 153 255 204 153 255 204 153 255 204 153"]
  {
    PpmLayout(width, height, cells, AsWritten);
    TokensOfCells10x2(cells);
    Layout10x2AsWritten();
  }

  /** The source's `check_header_correctness`: the first three lines of the
      text of a 10 by 20 canvas are "P3", "10 20" and "255". */
  method CheckHeaderCorrectness() returns (lines: seq<string>)
    ensures |lines| >= 3 && lines[..3] == ["P3", "10 20", "255"]
  {
    var cv := new Canvas(10, 20, None);
    var ppm := Stringify(cv);
    lines := Lines(ppm.text);
    HeaderLines10x20(cv.width, cv.height, cv.Cells());
  }

  /** The source's `check_stringified_color_correctness`, stated on the model
      of the code as written: the pixel data of the 5 by 3 canvas comes out on four lines,
      not the three one-row lines the test expects (see `Layout5x3AsWritten`
      and, for the intended layout, `Layout5x3RowAligned`). */
  method CheckStringifiedColorCorrectness() returns (lines: seq<string>)
    ensures |lines| == 7 && lines[3..] == [
      "255 0 0 0 0 0 0 0 0 0 0 0",
      "0 0 0 0 0 0 0 0 0 0 127 0",
      "0 0 0 0 0 0 0 0 0 0 0 0 0 0 0",
      "0 0 0 0 0 255"]
  {
    var cv := new Canvas(5, 3, None);
    cv.WritePixel(0, 0, Color(1.5, 0.0, 0.0));
    cv.WritePixel(2, 1, Color(0.0, 0.5, 0.0));
    cv.WritePixel(4, 2, Color(-0.5, 0.0, 1.0));
    assert cv.Cells() == Cells5x3;
    var ppm := Stringify(cv);
    lines := Lines(ppm.text);
    DataLines5x3(cv.width, cv.height);
  }

  /** The source's `splitting_long_lines_in_ppm_without_cutting_color_in_half`:
      the pixel data of the 10 by 2 canvas filled with (1, 0.8, 0.6) is four
      lines of five whole tokens. */
  method SplittingLongLines() returns (lines: seq<string>)
    ensures |lines| == 7 && lines[3..] == [
      "255 204 153 255 204 153 255 204 153 255 204 153 255 204 153",
      "255 204 153 255 204 153 255 204 153 255 204 153 255 204 153",
      "255 204 153 255 204 153 255 204 153 255 204 153 255 204 153",
      "255 204 153 255 204 153 255 204 153 255 204 153 255 204 153"]
  {
    var cv := new Canvas(10, 2, Some(Color(1.0, 0.8, 0.6)));
    var ppm := Stringify(cv);
    lines := Lines(ppm.text);
    DataLines10x2(cv.width, cv.height, cv.Cells());
  }

  /** The source's `ppm_ends_with_new_line`. */
  method PpmEndsWithNewLine() returns (text: string)
    ensures |text| > 0 && text[|text| - 1] == '\n'
  {
    var cv := new Canvas(5, 3, None);
    var ppm := Stringify(cv);
    text := ppm.text;
  }
}
