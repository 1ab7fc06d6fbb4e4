/** The `guess_eol`, `guess_codeset` and tag cases of the test suite. */
module DetectorExamples {
  import opened ByteStrings
  import opened Tags
  import opened EncodingTable
  import opened Detector
  import opened Literals
  import CharStrings

  /** test_guess_eol_nil */
  lemma GuessEolNilCase()
    ensures GuessEol(None) == None
  {
  }

  /** test_guess_eol_empty */
  lemma GuessEolEmptyCase()
    ensures GuessEol(Some([])) == Some(NONE)
  {
  }

  /** "foo bar", cut at its terminators. */
  const NoEolText: Bytes := [0x66, 0x6f, 0x6f, 0x20, 0x62, 0x61, 0x72]
  const NoEolPieces: Tokens := Cons([0x66, 0x6f, 0x6f, 0x20, 0x62, 0x61, 0x72], Nil)

  lemma NoEolRead()
    ensures PiecesRead(NoEolPieces) && Join(NoEolPieces) == NoEolText
  {
  }

  /** test_guess_eol_none */
  lemma GuessEolNoneCase()
    ensures GuessEol(Some(NoEolText)) == Some(NONE)
  {
    NoEolRead();
    GuessEolOfPieces(NoEolPieces, NoEolText);
  }

  /** "foo bar\r", cut at its terminators. */
  const CrEolText: Bytes := [0x66, 0x6f, 0x6f, 0x20, 0x62, 0x61, 0x72, 0x0d]
  const CrEolPieces: Tokens := Cons([0x66, 0x6f, 0x6f, 0x20, 0x62, 0x61, 0x72], Cons([0x0d], Nil))

  lemma CrEolRead()
    ensures PiecesRead(CrEolPieces) && Join(CrEolPieces) == CrEolText
  {
  }

  /** test_guess_eol_cr */
  lemma GuessEolCrCase()
    ensures GuessEol(Some(CrEolText)) == Some(CR)
  {
    CrEolRead();
    GuessEolOfPieces(CrEolPieces, CrEolText);
  }

  /** "foo bar\n", cut at its terminators. */
  const LfEolText: Bytes := [0x66, 0x6f, 0x6f, 0x20, 0x62, 0x61, 0x72, 0x0a]
  const LfEolPieces: Tokens := Cons([0x66, 0x6f, 0x6f, 0x20, 0x62, 0x61, 0x72], Cons([0x0a], Nil))

  lemma LfEolRead()
    ensures PiecesRead(LfEolPieces) && Join(LfEolPieces) == LfEolText
  {
  }

  /** test_guess_eol_lf */
  lemma GuessEolLfCase()
    ensures GuessEol(Some(LfEolText)) == Some(LF)
  {
    LfEolRead();
    GuessEolOfPieces(LfEolPieces, LfEolText);
  }

  /** "foo bar\r\n", cut at its terminators. */
  const CrlfEolText: Bytes := [0x66, 0x6f, 0x6f, 0x20, 0x62, 0x61, 0x72, 0x0d, 0x0a]
  const CrlfEolPieces: Tokens := Cons([0x66, 0x6f, 0x6f, 0x20, 0x62, 0x61, 0x72], Cons([0x0d, 0x0a], Nil))

  lemma CrlfEolRead()
    ensures PiecesRead(CrlfEolPieces) && Join(CrlfEolPieces) == CrlfEolText
  {
  }

  /** test_guess_eol_crlf */
  lemma GuessEolCrlfCase()
    ensures GuessEol(Some(CrlfEolText)) == Some(CRLF)
  {
    CrlfEolRead();
    GuessEolOfPieces(CrlfEolPieces, CrlfEolText);
  }

  /** "foo\rbar\nbaz\r\n", cut at its terminators. */
  const MixedEolText: Bytes := [0x66, 0x6f, 0x6f, 0x0d, 0x62, 0x61, 0x72, 0x0a, 0x62, 0x61, 0x7a, 0x0d, 0x0a]
  const MixedEolPieces: Tokens := Cons([0x66, 0x6f, 0x6f], Cons([0x0d], Cons([0x62, 0x61, 0x72], Cons([0x0a], Cons([0x62, 0x61, 0x7a], Cons([0x0d, 0x0a], Nil))))))

  lemma MixedEolRead()
    ensures PiecesRead(MixedEolPieces) && Join(MixedEolPieces) == MixedEolText
  {
  }

  /** test_guess_eol_mixed */
  lemma GuessEolMixedCase()
    ensures GuessEol(Some(MixedEolText)) == Some(Eol.UNKNOWN)
  {
    MixedEolRead();
    GuessEolOfPieces(MixedEolPieces, MixedEolText);
  }

  /** "foo\rbar\rbaz\r", cut at its terminators. */
  const AutoCrText: Bytes := [0x66, 0x6f, 0x6f, 0x0d, 0x62, 0x61, 0x72, 0x0d, 0x62, 0x61, 0x7a, 0x0d]
  const AutoCrPieces: Tokens := Cons([0x66, 0x6f, 0x6f], Cons([0x0d], Cons([0x62, 0x61, 0x72], Cons([0x0d], Cons([0x62, 0x61, 0x7a], Cons([0x0d], Nil))))))

  lemma AutoCrRead()
    ensures PiecesRead(AutoCrPieces) && Join(AutoCrPieces) == AutoCrText
  {
  }

  lemma AutoCrGuess()
    ensures GuessEolOf(AutoCrText) == CR
  {
    AutoCrRead();
    GuessEolOfPieces(AutoCrPieces, AutoCrText);
  }

  /** test_guess_eol_auto_cr: the tag of a string whose tag was never set is guessed. */
  method GuessEolAutoCrCase() returns (e: Eol)
    ensures e == CR
  {
    var str := new CharStrings.CharString(AutoCrText);
    AutoCrGuess();
    e := str.GetEol();
  }

  /** "foo\nbar\nbaz\n", cut at its terminators. */
  const AutoLfText: Bytes := [0x66, 0x6f, 0x6f, 0x0a, 0x62, 0x61, 0x72, 0x0a, 0x62, 0x61, 0x7a, 0x0a]
  const AutoLfPieces: Tokens := Cons([0x66, 0x6f, 0x6f], Cons([0x0a], Cons([0x62, 0x61, 0x72], Cons([0x0a], Cons([0x62, 0x61, 0x7a], Cons([0x0a], Nil))))))

  lemma AutoLfRead()
    ensures PiecesRead(AutoLfPieces) && Join(AutoLfPieces) == AutoLfText
  {
  }

  lemma AutoLfGuess()
    ensures GuessEolOf(AutoLfText) == LF
  {
    AutoLfRead();
    GuessEolOfPieces(AutoLfPieces, AutoLfText);
  }

  /** test_guess_eol_auto_lf: the tag of a string whose tag was never set is guessed. */
  method GuessEolAutoLfCase() returns (e: Eol)
    ensures e == LF
  {
    var str := new CharStrings.CharString(AutoLfText);
    AutoLfGuess();
    e := str.GetEol();
  }

  /** "foo\r\nbar\r\nbaz\r\n", cut at its terminators. */
  const AutoCrlfText: Bytes := [0x66, 0x6f, 0x6f, 0x0d, 0x0a, 0x62, 0x61, 0x72, 0x0d, 0x0a, 0x62, 0x61, 0x7a, 0x0d, 0x0a]
  const AutoCrlfPieces: Tokens := Cons([0x66, 0x6f, 0x6f], Cons([0x0d, 0x0a], Cons([0x62, 0x61, 0x72], Cons([0x0d, 0x0a], Cons([0x62, 0x61, 0x7a], Cons([0x0d, 0x0a], Nil))))))

  lemma AutoCrlfRead()
    ensures PiecesRead(AutoCrlfPieces) && Join(AutoCrlfPieces) == AutoCrlfText
  {
  }

  lemma AutoCrlfGuess()
    ensures GuessEolOf(AutoCrlfText) == CRLF
  {
    AutoCrlfRead();
    GuessEolOfPieces(AutoCrlfPieces, AutoCrlfText);
  }

  /** test_guess_eol_auto_crlf: the tag of a string whose tag was never set is guessed. */
  method GuessEolAutoCrlfCase() returns (e: Eol)
    ensures e == CRLF
  {
    var str := new CharStrings.CharString(AutoCrlfText);
    AutoCrlfGuess();
    e := str.GetEol();
  }

  /** test_guess_codeset_nil */
  lemma GuessCodesetNilCase()
    ensures GuessCodeset(None) == None
  {
  }

  /** "ASCII string" in ASCII. */
  const SevenText: Bytes := [0x41, 0x53, 0x43, 0x49, 0x49, 0x20, 0x73, 0x74, 0x72, 0x69, 0x6e, 0x67]
  const SevenChars: Tokens := Cons([0x41], Cons([0x53], Cons([0x43], Cons([0x49], Cons([0x49], Cons([0x20], Cons([0x73], Cons([0x74], Cons([0x72], Cons([0x69], Cons([0x6e], Cons([0x67], Nil))))))))))))

  lemma SevenRead()
    ensures Alone(ASCII, NONE, SevenChars)
  {
  }

  lemma SevenBytes()
    ensures Join(SevenChars) == SevenText
  {
  }

  lemma SevenNoEscape()
    ensures 0x1B !in SevenText
  {
  }

  /** test_guess_codeset_ascii */
  lemma GuessCodesetAsciiCase()
    ensures GuessCodeset(Some(SevenText)) == Some(ASCII)
  {
    SevenRead();
    SevenBytes();
    SevenNoEscape();
    GuessCodesetOfTokens(ASCII, SevenChars, SevenText);
  }

  /** "日本語とLatinの文字" in EUC_JP. */
  const EucJpText: Bytes := [0xc6, 0xfc, 0xcb, 0xdc, 0xb8, 0xec, 0xa4, 0xc8, 0x4c, 0x61, 0x74, 0x69, 0x6e, 0xa4, 0xce, 0xca, 0xb8, 0xbb, 0xfa]
  const EucJpChars: Tokens := Cons([0xc6, 0xfc], Cons([0xcb, 0xdc], Cons([0xb8, 0xec], Cons([0xa4, 0xc8], Cons([0x4c], Cons([0x61], Cons([0x74], Cons([0x69], Cons([0x6e], Cons([0xa4, 0xce], Cons([0xca, 0xb8], Cons([0xbb, 0xfa], Nil))))))))))))

  lemma EucJpRead()
    ensures Alone(EUC_JP, NONE, EucJpChars)
  {
  }

  lemma EucJpBytes()
    ensures Join(EucJpChars) == EucJpText
  {
  }

  lemma EucJpNoEscape()
    ensures 0x1B !in EucJpText
  {
  }

  lemma EucJpWide()
    ensures !AllAscii(EucJpText)
  {
    assert !IsAscii(EucJpText[0]);
  }

  lemma EucJpNotUtf8()
    ensures !Valid(UTF8, EucJpText)
  {
    InvalidFront(UTF8, EucJpText);
  }

  /** test_guess_codeset_eucjp */
  lemma GuessCodesetEucjpCase()
    ensures GuessCodeset(Some(EucJpText)) == Some(EUC_JP)
  {
    EucJpRead();
    EucJpBytes();
    EucJpNoEscape();
    EucJpWide();
    EucJpNotUtf8();
    GuessCodesetOfTokens(EUC_JP, EucJpChars, EucJpText);
  }

  /** "日本語とLatinの文字" in JIS. */
  const JisText: Bytes := [0x1b, 0x24, 0x42, 0x46, 0x7c, 0x4b, 0x5c, 0x38, 0x6c, 0x24, 0x48, 0x1b, 0x28, 0x42, 0x4c, 0x61, 0x74, 0x69, 0x6e, 0x1b, 0x24, 0x42, 0x24, 0x4e, 0x4a, 0x38, 0x3b, 0x7a, 0x1b, 0x28, 0x42]

  /** test_guess_codeset_jis */
  lemma GuessCodesetJisCase()
    ensures GuessCodeset(Some(JisText)) == Some(JIS)
  {
    assert JisEscapeAt(JisText, 0);
  }

  /** "日本語とLatinの文字" in Shift_JIS. */
  const ShiftJisText: Bytes := [0x93, 0xfa, 0x96, 0x7b, 0x8c, 0xea, 0x82, 0xc6, 0x4c, 0x61, 0x74, 0x69, 0x6e, 0x82, 0xcc, 0x95, 0xb6, 0x8e, 0x9a]
  const ShiftJisChars: Tokens := Cons([0x93, 0xfa], Cons([0x96, 0x7b], Cons([0x8c, 0xea], Cons([0x82, 0xc6], Cons([0x4c], Cons([0x61], Cons([0x74], Cons([0x69], Cons([0x6e], Cons([0x82, 0xcc], Cons([0x95, 0xb6], Cons([0x8e, 0x9a], Nil))))))))))))

  lemma ShiftJisRead()
    ensures Alone(Shift_JIS, NONE, ShiftJisChars)
  {
  }

  lemma ShiftJisBytes()
    ensures Join(ShiftJisChars) == ShiftJisText
  {
  }

  lemma ShiftJisNoEscape()
    ensures 0x1B !in ShiftJisText
  {
  }

  lemma ShiftJisWide()
    ensures !AllAscii(ShiftJisText)
  {
    assert !IsAscii(ShiftJisText[0]);
  }

  lemma ShiftJisNotUtf8()
    ensures !Valid(UTF8, ShiftJisText)
  {
    InvalidFront(UTF8, ShiftJisText);
  }

  lemma ShiftJisNotEucJp()
    ensures !Valid(EUC_JP, ShiftJisText)
  {
    InvalidFront(EUC_JP, ShiftJisText);
  }

  /** test_guess_codeset_sjis */
  lemma GuessCodesetSjisCase()
    ensures GuessCodeset(Some(ShiftJisText)) == Some(Shift_JIS)
  {
    ShiftJisRead();
    ShiftJisBytes();
    ShiftJisNoEscape();
    ShiftJisWide();
    ShiftJisNotUtf8();
    ShiftJisNotEucJp();
    GuessCodesetOfTokens(Shift_JIS, ShiftJisChars, ShiftJisText);
  }

  /** "日本語とLatinの文字" in UTF8. */
  const Utf8Text: Bytes := [0xe6, 0x97, 0xa5, 0xe6, 0x9c, 0xac, 0xe8, 0xaa, 0x9e, 0xe3, 0x81, 0xa8, 0x4c, 0x61, 0x74, 0x69, 0x6e, 0xe3, 0x81, 0xae, 0xe6, 0x96, 0x87, 0xe5, 0xad, 0x97]
  const Utf8Chars: Tokens := Cons([0xe6, 0x97, 0xa5], Cons([0xe6, 0x9c, 0xac], Cons([0xe8, 0xaa, 0x9e], Cons([0xe3, 0x81, 0xa8], Cons([0x4c], Cons([0x61], Cons([0x74], Cons([0x69], Cons([0x6e], Cons([0xe3, 0x81, 0xae], Cons([0xe6, 0x96, 0x87], Cons([0xe5, 0xad, 0x97], Nil))))))))))))

  lemma Utf8Read()
    ensures Alone(UTF8, NONE, Utf8Chars)
  {
  }

  lemma Utf8Bytes()
    ensures Join(Utf8Chars) == Utf8Text
  {
  }

  lemma Utf8NoEscape()
    ensures 0x1B !in Utf8Text
  {
  }

  lemma Utf8Wide()
    ensures !AllAscii(Utf8Text)
  {
    assert !IsAscii(Utf8Text[0]);
  }

  /** test_guess_codeset_utf8 */
  lemma GuessCodesetUtf8Case()
    ensures GuessCodeset(Some(Utf8Text)) == Some(UTF8)
  {
    Utf8Read();
    Utf8Bytes();
    Utf8NoEscape();
    Utf8Wide();
    GuessCodesetOfTokens(UTF8, Utf8Chars, Utf8Text);
  }

  /** Four 0xFF bytes, a character in none of the codesets. */
  const JunkText: Bytes := [0xff, 0xff, 0xff, 0xff]

  /** test_guess_codeset_unknown */
  lemma GuessCodesetUnknownCase()
    ensures GuessCodeset(Some(JunkText)) == Some(Codeset.UNKNOWN)
  {
    NoEscapeNoJis(JunkText);
    InvalidFront(ASCII, JunkText); InvalidFront(UTF8, JunkText);
    InvalidFront(EUC_JP, JunkText); InvalidFront(Shift_JIS, JunkText);
  }

  /** "abc\ndef\n" in ASCII. */
  const AutoAsciiText: Bytes := [0x61, 0x62, 0x63, 0x0a, 0x64, 0x65, 0x66, 0x0a]
  const AutoAsciiChars: Tokens := Cons([0x61], Cons([0x62], Cons([0x63], Cons([0x0a], Cons([0x64], Cons([0x65], Cons([0x66], Cons([0x0a], Nil))))))))

  lemma AutoAsciiRead()
    ensures Alone(ASCII, NONE, AutoAsciiChars)
  {
  }

  lemma AutoAsciiBytes()
    ensures Join(AutoAsciiChars) == AutoAsciiText
  {
  }

  lemma AutoAsciiNoEscape()
    ensures 0x1B !in AutoAsciiText
  {
  }

  lemma AutoAsciiGuess()
    ensures GuessCodesetOf(AutoAsciiText) == ASCII
  {
    AutoAsciiRead();
    AutoAsciiBytes();
    AutoAsciiNoEscape();
    GuessCodesetOfTokens(ASCII, AutoAsciiChars, AutoAsciiText);
  }

  /** test_guess_codeset_auto_ascii: the tag of a string whose tag was never set is guessed. */
  method GuessCodesetAutoAsciiCase() returns (c: Codeset)
    ensures c == ASCII
  {
    var str := new CharStrings.CharString(AutoAsciiText);
    AutoAsciiGuess();
    c := str.GetCodeset();
  }

  /** "漢字とカタカナとひらがな\n" in EUC_JP. */
  const AutoEucJpText: Bytes := [0xb4, 0xc1, 0xbb, 0xfa, 0xa4, 0xc8, 0xa5, 0xab, 0xa5, 0xbf, 0xa5, 0xab, 0xa5, 0xca, 0xa4, 0xc8, 0xa4, 0xd2, 0xa4, 0xe9, 0xa4, 0xac, 0xa4, 0xca, 0x0a]
  const AutoEucJpChars: Tokens := Cons([0xb4, 0xc1], Cons([0xbb, 0xfa], Cons([0xa4, 0xc8], Cons([0xa5, 0xab], Cons([0xa5, 0xbf], Cons([0xa5, 0xab], Cons([0xa5, 0xca], Cons([0xa4, 0xc8], Cons([0xa4, 0xd2], Cons([0xa4, 0xe9], Cons([0xa4, 0xac], Cons([0xa4, 0xca], Cons([0x0a], Nil)))))))))))))

  lemma AutoEucJpRead()
    ensures Alone(EUC_JP, NONE, AutoEucJpChars)
  {
  }

  lemma AutoEucJpBytes()
    ensures Join(AutoEucJpChars) == AutoEucJpText
  {
  }

  lemma AutoEucJpNoEscape()
    ensures 0x1B !in AutoEucJpText
  {
  }

  lemma AutoEucJpWide()
    ensures !AllAscii(AutoEucJpText)
  {
    assert !IsAscii(AutoEucJpText[0]);
  }

  lemma AutoEucJpNotUtf8()
    ensures !Valid(UTF8, AutoEucJpText)
  {
    InvalidFront(UTF8, AutoEucJpText);
  }

  lemma AutoEucJpGuess()
    ensures GuessCodesetOf(AutoEucJpText) == EUC_JP
  {
    AutoEucJpRead();
    AutoEucJpBytes();
    AutoEucJpNoEscape();
    AutoEucJpWide();
    AutoEucJpNotUtf8();
    GuessCodesetOfTokens(EUC_JP, AutoEucJpChars, AutoEucJpText);
  }

  /** test_guess_codeset_auto_eucjp: the tag of a string whose tag was never set is guessed. */
  method GuessCodesetAutoEucjpCase() returns (c: Codeset)
    ensures c == EUC_JP
  {
    var str := new CharStrings.CharString(AutoEucJpText);
    AutoEucJpGuess();
    c := str.GetCodeset();
  }

  /** "いろは\nにほへと\n" in Shift_JIS. */
  const AutoShiftJisText: Bytes := [0x82, 0xa2, 0x82, 0xeb, 0x82, 0xcd, 0x0a, 0x82, 0xc9, 0x82, 0xd9, 0x82, 0xd6, 0x82, 0xc6, 0x0a]
  const AutoShiftJisChars: Tokens := Cons([0x82, 0xa2], Cons([0x82, 0xeb], Cons([0x82, 0xcd], Cons([0x0a], Cons([0x82, 0xc9], Cons([0x82, 0xd9], Cons([0x82, 0xd6], Cons([0x82, 0xc6], Cons([0x0a], Nil)))))))))

  lemma AutoShiftJisRead()
    ensures Alone(Shift_JIS, NONE, AutoShiftJisChars)
  {
  }

  lemma AutoShiftJisBytes()
    ensures Join(AutoShiftJisChars) == AutoShiftJisText
  {
  }

  lemma AutoShiftJisNoEscape()
    ensures 0x1B !in AutoShiftJisText
  {
  }

  lemma AutoShiftJisWide()
    ensures !AllAscii(AutoShiftJisText)
  {
    assert !IsAscii(AutoShiftJisText[0]);
  }

  lemma AutoShiftJisNotUtf8()
    ensures !Valid(UTF8, AutoShiftJisText)
  {
    InvalidFront(UTF8, AutoShiftJisText);
  }

  lemma AutoShiftJisNotEucJp()
    ensures !Valid(EUC_JP, AutoShiftJisText)
  {
    InvalidFront(EUC_JP, AutoShiftJisText);
  }

  lemma AutoShiftJisGuess()
    ensures GuessCodesetOf(AutoShiftJisText) == Shift_JIS
  {
    AutoShiftJisRead();
    AutoShiftJisBytes();
    AutoShiftJisNoEscape();
    AutoShiftJisWide();
    AutoShiftJisNotUtf8();
    AutoShiftJisNotEucJp();
    GuessCodesetOfTokens(Shift_JIS, AutoShiftJisChars, AutoShiftJisText);
  }

  /** test_guess_codeset_auto_sjis: the tag of a string whose tag was never set is guessed. */
  method GuessCodesetAutoSjisCase() returns (c: Codeset)
    ensures c == Shift_JIS
  {
    var str := new CharStrings.CharString(AutoShiftJisText);
    AutoShiftJisGuess();
    c := str.GetCodeset();
  }

  /** "いろは\nにほへと\n" in UTF8. */
  const AutoUtf8Text: Bytes := [0xe3, 0x81, 0x84, 0xe3, 0x82, 0x8d, 0xe3, 0x81, 0xaf, 0x0a, 0xe3, 0x81, 0xab, 0xe3, 0x81, 0xbb, 0xe3, 0x81, 0xb8, 0xe3, 0x81, 0xa8, 0x0a]
  const AutoUtf8Chars: Tokens := Cons([0xe3, 0x81, 0x84], Cons([0xe3, 0x82, 0x8d], Cons([0xe3, 0x81, 0xaf], Cons([0x0a], Cons([0xe3, 0x81, 0xab], Cons([0xe3, 0x81, 0xbb], Cons([0xe3, 0x81, 0xb8], Cons([0xe3, 0x81, 0xa8], Cons([0x0a], Nil)))))))))

  lemma AutoUtf8Read()
    ensures Alone(UTF8, NONE, AutoUtf8Chars)
  {
  }

  lemma AutoUtf8Bytes()
    ensures Join(AutoUtf8Chars) == AutoUtf8Text
  {
  }

  lemma AutoUtf8NoEscape()
    ensures 0x1B !in AutoUtf8Text
  {
  }

  lemma AutoUtf8Wide()
    ensures !AllAscii(AutoUtf8Text)
  {
    assert !IsAscii(AutoUtf8Text[0]);
  }

  lemma AutoUtf8Guess()
    ensures GuessCodesetOf(AutoUtf8Text) == UTF8
  {
    AutoUtf8Read();
    AutoUtf8Bytes();
    AutoUtf8NoEscape();
    AutoUtf8Wide();
    GuessCodesetOfTokens(UTF8, AutoUtf8Chars, AutoUtf8Text);
  }

  /** test_guess_codeset_auto_utf8: the tag of a string whose tag was never set is guessed. */
  method GuessCodesetAutoUtf8Case() returns (c: Codeset)
    ensures c == UTF8
  {
    var str := new CharStrings.CharString(AutoUtf8Text);
    AutoUtf8Guess();
    c := str.GetCodeset();
  }

  /** test_codeset_ascii: a tag that was set reads back as set. */
  method CodesetAsciiCase() returns (c: Codeset)
    ensures c == ASCII
  {
    var str := new CharStrings.CharString([0x66, 0x6f, 0x6f]);
    str.SetCodeset(ASCII);
    c := str.GetCodeset();
  }

  /** test_codeset_eucjp: a tag that was set reads back as set. */
  method CodesetEucjpCase() returns (c: Codeset)
    ensures c == EUC_JP
  {
    var str := new CharStrings.CharString([0x66, 0x6f, 0x6f]);
    str.SetCodeset(EUC_JP);
    c := str.GetCodeset();
  }

  /** test_codeset_sjis: a tag that was set reads back as set. */
  method CodesetSjisCase() returns (c: Codeset)
    ensures c == Shift_JIS
  {
    var str := new CharStrings.CharString([0x66, 0x6f, 0x6f]);
    str.SetCodeset(Shift_JIS);
    c := str.GetCodeset();
  }

  /** test_codeset_utf8: a tag that was set reads back as set. */
  method CodesetUtf8Case() returns (c: Codeset)
    ensures c == UTF8
  {
    var str := new CharStrings.CharString([0x66, 0x6f, 0x6f]);
    str.SetCodeset(UTF8);
    c := str.GetCodeset();
  }

  /** test_eol_cr: a tag that was set reads back as set. */
  method EolCrCase() returns (e: Eol)
    ensures e == CR
  {
    var str := new CharStrings.CharString([0x66, 0x6f, 0x6f]);
    str.SetEol(CR);
    e := str.GetEol();
  }

  /** test_eol_lf: a tag that was set reads back as set. */
  method EolLfCase() returns (e: Eol)
    ensures e == LF
  {
    var str := new CharStrings.CharString([0x66, 0x6f, 0x6f]);
    str.SetEol(LF);
    e := str.GetEol();
  }

  /** test_eol_crlf: a tag that was set reads back as set. */
  method EolCrlfCase() returns (e: Eol)
    ensures e == CRLF
  {
    var str := new CharStrings.CharString([0x66, 0x6f, 0x6f]);
    str.SetEol(CRLF);
    e := str.GetEol();
  }
}
