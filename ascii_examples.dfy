/** The ASCII cases of the test suite. */
module AsciiExamples {
  import opened ByteStrings
  import opened Tags
  import opened EncodingTable
  import opened Chars
  import opened Lines
  import opened Words
  import opened Counters
  import opened Literals

  /** "foo bar". */
  const PlainWordsText: Bytes := [0x66, 0x6f, 0x6f, 0x20, 0x62, 0x61, 0x72]
  const PlainWordsWords: Groups := GCons(Cons([0x66], Cons([0x6f], Cons([0x6f], Cons([0x20], Nil)))), GCons(Cons([0x62], Cons([0x61], Cons([0x72], Nil))), GNil))

  lemma PlainWordsRead()
    ensures CharsRead(ASCII, NONE, PlainWordsWords)
  {
  }

  lemma PlainWordsWord0()
    ensures WordFits(Classifier(ASCII), Cons([0x66], Cons([0x6f], Cons([0x6f], Cons([0x20], Nil)))), Cons([0x62], Cons([0x61], Cons([0x72], Nil))))
  {
  }

  lemma PlainWordsWord1()
    ensures WordFits(Classifier(ASCII), Cons([0x62], Cons([0x61], Cons([0x72], Nil))), Nil)
  {
  }

  lemma PlainWordsFit()
    ensures WordsRead(Classifier(ASCII), PlainWordsWords)
  {
    PlainWordsWord0(); PlainWordsWord1();
  }

  lemma PlainWordsBytes()
    ensures GroupBytes(PlainWordsWords) == PlainWordsText
  {
  }

  /** test_ascii_to_word */
  lemma ToWordCase()
    ensures ToWord(ASCII, PlainWordsText) == [[0x66, 0x6f, 0x6f, 0x20], [0x62, 0x61, 0x72]]
  {
    assert GroupFlats(PlainWordsWords) == [[0x66, 0x6f, 0x6f, 0x20], [0x62, 0x61, 0x72]] by {
      assert Join(Cons([0x66], Cons([0x6f], Cons([0x6f], Cons([0x20], Nil))))) == [0x66, 0x6f, 0x6f, 0x20];
      assert Join(Cons([0x62], Cons([0x61], Cons([0x72], Nil)))) == [0x62, 0x61, 0x72];
    }
    PlainWordsRead();
    PlainWordsFit();
    PlainWordsBytes();
    ReadWordText(ASCII, PlainWordsWords);
  }

  /** "foo (bar) baz-baz". */
  const SymbolWordsText: Bytes := [0x66, 0x6f, 0x6f, 0x20, 0x28, 0x62, 0x61, 0x72, 0x29, 0x20, 0x62, 0x61, 0x7a, 0x2d, 0x62, 0x61, 0x7a]
  const SymbolWordsWords: Groups := GCons(Cons([0x66], Cons([0x6f], Cons([0x6f], Cons([0x20], Nil)))), GCons(Cons([0x28], Cons([0x62], Cons([0x61], Cons([0x72], Cons([0x29], Cons([0x20], Nil)))))), GCons(Cons([0x62], Cons([0x61], Cons([0x7a], Cons([0x2d], Cons([0x62], Cons([0x61], Cons([0x7a], Nil))))))), GNil)))

  lemma SymbolWordsRead()
    ensures CharsRead(ASCII, NONE, SymbolWordsWords)
  {
  }

  lemma SymbolWordsWord0()
    ensures WordFits(Classifier(ASCII), Cons([0x66], Cons([0x6f], Cons([0x6f], Cons([0x20], Nil)))), Cons([0x28], Cons([0x62], Cons([0x61], Cons([0x72], Cons([0x29], Cons([0x20], Nil)))))))
  {
  }

  lemma SymbolWordsWord1()
    ensures WordFits(Classifier(ASCII), Cons([0x28], Cons([0x62], Cons([0x61], Cons([0x72], Cons([0x29], Cons([0x20], Nil)))))), Cons([0x62], Cons([0x61], Cons([0x7a], Cons([0x2d], Cons([0x62], Cons([0x61], Cons([0x7a], Nil))))))))
  {
  }

  lemma SymbolWordsWord2()
    ensures WordFits(Classifier(ASCII), Cons([0x62], Cons([0x61], Cons([0x7a], Cons([0x2d], Cons([0x62], Cons([0x61], Cons([0x7a], Nil))))))), Nil)
  {
  }

  lemma SymbolWordsFit()
    ensures WordsRead(Classifier(ASCII), SymbolWordsWords)
  {
    SymbolWordsWord0(); SymbolWordsWord1(); SymbolWordsWord2();
  }

  lemma SymbolWordsBytes()
    ensures GroupBytes(SymbolWordsWords) == SymbolWordsText
  {
  }

  /** test_ascii_to_word_withsymbol */
  lemma ToWordWithsymbolCase()
    ensures ToWord(ASCII, SymbolWordsText) == [[0x66, 0x6f, 0x6f, 0x20], [0x28, 0x62, 0x61, 0x72, 0x29, 0x20], [0x62, 0x61, 0x7a, 0x2d, 0x62, 0x61, 0x7a]]
  {
    assert GroupFlats(SymbolWordsWords) == [[0x66, 0x6f, 0x6f, 0x20], [0x28, 0x62, 0x61, 0x72, 0x29, 0x20], [0x62, 0x61, 0x7a, 0x2d, 0x62, 0x61, 0x7a]] by {
      assert Join(Cons([0x66], Cons([0x6f], Cons([0x6f], Cons([0x20], Nil))))) == [0x66, 0x6f, 0x6f, 0x20];
      assert Join(Cons([0x28], Cons([0x62], Cons([0x61], Cons([0x72], Cons([0x29], Cons([0x20], Nil))))))) == [0x28, 0x62, 0x61, 0x72, 0x29, 0x20];
      assert Join(Cons([0x62], Cons([0x61], Cons([0x7a], Cons([0x2d], Cons([0x62], Cons([0x61], Cons([0x7a], Nil)))))))) == [0x62, 0x61, 0x7a, 0x2d, 0x62, 0x61, 0x7a];
    }
    SymbolWordsRead();
    SymbolWordsFit();
    SymbolWordsBytes();
    ReadWordText(ASCII, SymbolWordsWords);
  }

  /** "foo's 'foo' \"bar\" 'baz.'". */
  const QuoteWordsText: Bytes := [0x66, 0x6f, 0x6f, 0x27, 0x73, 0x20, 0x27, 0x66, 0x6f, 0x6f, 0x27, 0x20, 0x22, 0x62, 0x61, 0x72, 0x22, 0x20, 0x27, 0x62, 0x61, 0x7a, 0x2e, 0x27]
  const QuoteWordsWords: Groups := GCons(Cons([0x66], Cons([0x6f], Cons([0x6f], Cons([0x27], Cons([0x73], Cons([0x20], Nil)))))), GCons(Cons([0x27], Cons([0x66], Cons([0x6f], Cons([0x6f], Cons([0x27], Cons([0x20], Nil)))))), GCons(Cons([0x22], Cons([0x62], Cons([0x61], Cons([0x72], Cons([0x22], Cons([0x20], Nil)))))), GCons(Cons([0x27], Cons([0x62], Cons([0x61], Cons([0x7a], Cons([0x2e], Cons([0x27], Nil)))))), GNil))))

  lemma QuoteWordsRead()
    ensures CharsRead(ASCII, NONE, QuoteWordsWords)
  {
  }

  lemma QuoteWordsWord0()
    ensures WordFits(Classifier(ASCII), Cons([0x66], Cons([0x6f], Cons([0x6f], Cons([0x27], Cons([0x73], Cons([0x20], Nil)))))), Cons([0x27], Cons([0x66], Cons([0x6f], Cons([0x6f], Cons([0x27], Cons([0x20], Nil)))))))
  {
  }

  lemma QuoteWordsWord1()
    ensures WordFits(Classifier(ASCII), Cons([0x27], Cons([0x66], Cons([0x6f], Cons([0x6f], Cons([0x27], Cons([0x20], Nil)))))), Cons([0x22], Cons([0x62], Cons([0x61], Cons([0x72], Cons([0x22], Cons([0x20], Nil)))))))
  {
  }

  lemma QuoteWordsWord2()
    ensures WordFits(Classifier(ASCII), Cons([0x22], Cons([0x62], Cons([0x61], Cons([0x72], Cons([0x22], Cons([0x20], Nil)))))), Cons([0x27], Cons([0x62], Cons([0x61], Cons([0x7a], Cons([0x2e], Cons([0x27], Nil)))))))
  {
  }

  lemma QuoteWordsWord3()
    ensures WordFits(Classifier(ASCII), Cons([0x27], Cons([0x62], Cons([0x61], Cons([0x7a], Cons([0x2e], Cons([0x27], Nil)))))), Nil)
  {
  }

  lemma QuoteWordsFit()
    ensures WordsRead(Classifier(ASCII), QuoteWordsWords)
  {
    QuoteWordsWord0(); QuoteWordsWord1(); QuoteWordsWord2(); QuoteWordsWord3();
  }

  lemma QuoteWordsBytes()
    ensures GroupBytes(QuoteWordsWords) == QuoteWordsText
  {
  }

  /** test_ascii_to_word_withquote */
  lemma ToWordWithquoteCase()
    ensures ToWord(ASCII, QuoteWordsText) == [[0x66, 0x6f, 0x6f, 0x27, 0x73, 0x20], [0x27, 0x66, 0x6f, 0x6f, 0x27, 0x20], [0x22, 0x62, 0x61, 0x72, 0x22, 0x20], [0x27, 0x62, 0x61, 0x7a, 0x2e, 0x27]]
  {
    assert GroupFlats(QuoteWordsWords) == [[0x66, 0x6f, 0x6f, 0x27, 0x73, 0x20], [0x27, 0x66, 0x6f, 0x6f, 0x27, 0x20], [0x22, 0x62, 0x61, 0x72, 0x22, 0x20], [0x27, 0x62, 0x61, 0x7a, 0x2e, 0x27]] by {
      assert Join(Cons([0x66], Cons([0x6f], Cons([0x6f], Cons([0x27], Cons([0x73], Cons([0x20], Nil))))))) == [0x66, 0x6f, 0x6f, 0x27, 0x73, 0x20];
      assert Join(Cons([0x27], Cons([0x66], Cons([0x6f], Cons([0x6f], Cons([0x27], Cons([0x20], Nil))))))) == [0x27, 0x66, 0x6f, 0x6f, 0x27, 0x20];
      assert Join(Cons([0x22], Cons([0x62], Cons([0x61], Cons([0x72], Cons([0x22], Cons([0x20], Nil))))))) == [0x22, 0x62, 0x61, 0x72, 0x22, 0x20];
      assert Join(Cons([0x27], Cons([0x62], Cons([0x61], Cons([0x7a], Cons([0x2e], Cons([0x27], Nil))))))) == [0x27, 0x62, 0x61, 0x7a, 0x2e, 0x27];
    }
    QuoteWordsRead();
    QuoteWordsFit();
    QuoteWordsBytes();
    ReadWordText(ASCII, QuoteWordsWords);
  }

  /** " foo  bar". */
  const LongSpaceWordsText: Bytes := [0x20, 0x66, 0x6f, 0x6f, 0x20, 0x20, 0x62, 0x61, 0x72]
  const LongSpaceWordsWords: Groups := GCons(Cons([0x20], Nil), GCons(Cons([0x66], Cons([0x6f], Cons([0x6f], Cons([0x20], Nil)))), GCons(Cons([0x20], Nil), GCons(Cons([0x62], Cons([0x61], Cons([0x72], Nil))), GNil))))

  lemma LongSpaceWordsRead()
    ensures CharsRead(ASCII, NONE, LongSpaceWordsWords)
  {
  }

  lemma LongSpaceWordsWord0()
    ensures WordFits(Classifier(ASCII), Cons([0x20], Nil), Cons([0x66], Cons([0x6f], Cons([0x6f], Cons([0x20], Nil)))))
  {
  }

  lemma LongSpaceWordsWord1()
    ensures WordFits(Classifier(ASCII), Cons([0x66], Cons([0x6f], Cons([0x6f], Cons([0x20], Nil)))), Cons([0x20], Nil))
  {
  }

  lemma LongSpaceWordsWord2()
    ensures WordFits(Classifier(ASCII), Cons([0x20], Nil), Cons([0x62], Cons([0x61], Cons([0x72], Nil))))
  {
  }

  lemma LongSpaceWordsWord3()
    ensures WordFits(Classifier(ASCII), Cons([0x62], Cons([0x61], Cons([0x72], Nil))), Nil)
  {
  }

  lemma LongSpaceWordsFit()
    ensures WordsRead(Classifier(ASCII), LongSpaceWordsWords)
  {
    LongSpaceWordsWord0(); LongSpaceWordsWord1(); LongSpaceWordsWord2(); LongSpaceWordsWord3();
  }

  lemma LongSpaceWordsBytes()
    ensures GroupBytes(LongSpaceWordsWords) == LongSpaceWordsText
  {
  }

  /** test_ascii_to_word_withlongspace */
  lemma ToWordWithlongspaceCase()
    ensures ToWord(ASCII, LongSpaceWordsText) == [[0x20], [0x66, 0x6f, 0x6f, 0x20], [0x20], [0x62, 0x61, 0x72]]
  {
    assert GroupFlats(LongSpaceWordsWords) == [[0x20], [0x66, 0x6f, 0x6f, 0x20], [0x20], [0x62, 0x61, 0x72]] by {
      assert Join(Cons([0x20], Nil)) == [0x20];
      assert Join(Cons([0x66], Cons([0x6f], Cons([0x6f], Cons([0x20], Nil))))) == [0x66, 0x6f, 0x6f, 0x20];
      assert Join(Cons([0x20], Nil)) == [0x20];
      assert Join(Cons([0x62], Cons([0x61], Cons([0x72], Nil)))) == [0x62, 0x61, 0x72];
    }
    LongSpaceWordsRead();
    LongSpaceWordsFit();
    LongSpaceWordsBytes();
    ReadWordText(ASCII, LongSpaceWordsWords);
  }

  /** "foo -- bar, baz - quux". */
  const DashWordsText: Bytes := [0x66, 0x6f, 0x6f, 0x20, 0x2d, 0x2d, 0x20, 0x62, 0x61, 0x72, 0x2c, 0x20, 0x62, 0x61, 0x7a, 0x20, 0x2d, 0x20, 0x71, 0x75, 0x75, 0x78]
  const DashWordsWords: Groups := GCons(Cons([0x66], Cons([0x6f], Cons([0x6f], Cons([0x20], Nil)))), GCons(Cons([0x2d], Cons([0x2d], Cons([0x20], Nil))), GCons(Cons([0x62], Cons([0x61], Cons([0x72], Cons([0x2c], Cons([0x20], Nil))))), GCons(Cons([0x62], Cons([0x61], Cons([0x7a], Cons([0x20], Nil)))), GCons(Cons([0x2d], Cons([0x20], Nil)), GCons(Cons([0x71], Cons([0x75], Cons([0x75], Cons([0x78], Nil)))), GNil))))))

  lemma DashWordsRead()
    ensures CharsRead(ASCII, NONE, DashWordsWords)
  {
  }

  lemma DashWordsWord0()
    ensures WordFits(Classifier(ASCII), Cons([0x66], Cons([0x6f], Cons([0x6f], Cons([0x20], Nil)))), Cons([0x2d], Cons([0x2d], Cons([0x20], Nil))))
  {
  }

  lemma DashWordsWord1()
    ensures WordFits(Classifier(ASCII), Cons([0x2d], Cons([0x2d], Cons([0x20], Nil))), Cons([0x62], Cons([0x61], Cons([0x72], Cons([0x2c], Cons([0x20], Nil))))))
  {
  }

  lemma DashWordsWord2()
    ensures WordFits(Classifier(ASCII), Cons([0x62], Cons([0x61], Cons([0x72], Cons([0x2c], Cons([0x20], Nil))))), Cons([0x62], Cons([0x61], Cons([0x7a], Cons([0x20], Nil)))))
  {
  }

  lemma DashWordsWord3()
    ensures WordFits(Classifier(ASCII), Cons([0x62], Cons([0x61], Cons([0x7a], Cons([0x20], Nil)))), Cons([0x2d], Cons([0x20], Nil)))
  {
  }

  lemma DashWordsWord4()
    ensures WordFits(Classifier(ASCII), Cons([0x2d], Cons([0x20], Nil)), Cons([0x71], Cons([0x75], Cons([0x75], Cons([0x78], Nil)))))
  {
  }

  lemma DashWordsWord5()
    ensures WordFits(Classifier(ASCII), Cons([0x71], Cons([0x75], Cons([0x75], Cons([0x78], Nil)))), Nil)
  {
  }

  lemma DashWordsFit()
    ensures WordsRead(Classifier(ASCII), DashWordsWords)
  {
    DashWordsWord0(); DashWordsWord1(); DashWordsWord2(); DashWordsWord3(); DashWordsWord4(); DashWordsWord5();
  }

  lemma DashWordsBytes()
    ensures GroupBytes(DashWordsWords) == DashWordsText
  {
  }

  /** test_ascii_to_word_withdash */
  lemma ToWordWithdashCase()
    ensures ToWord(ASCII, DashWordsText) == [[0x66, 0x6f, 0x6f, 0x20], [0x2d, 0x2d, 0x20], [0x62, 0x61, 0x72, 0x2c, 0x20], [0x62, 0x61, 0x7a, 0x20], [0x2d, 0x20], [0x71, 0x75, 0x75, 0x78]]
  {
    assert GroupFlats(DashWordsWords) == [[0x66, 0x6f, 0x6f, 0x20], [0x2d, 0x2d, 0x20], [0x62, 0x61, 0x72, 0x2c, 0x20], [0x62, 0x61, 0x7a, 0x20], [0x2d, 0x20], [0x71, 0x75, 0x75, 0x78]] by {
      assert Join(Cons([0x66], Cons([0x6f], Cons([0x6f], Cons([0x20], Nil))))) == [0x66, 0x6f, 0x6f, 0x20];
      assert Join(Cons([0x2d], Cons([0x2d], Cons([0x20], Nil)))) == [0x2d, 0x2d, 0x20];
      assert Join(Cons([0x62], Cons([0x61], Cons([0x72], Cons([0x2c], Cons([0x20], Nil)))))) == [0x62, 0x61, 0x72, 0x2c, 0x20];
      assert Join(Cons([0x62], Cons([0x61], Cons([0x7a], Cons([0x20], Nil))))) == [0x62, 0x61, 0x7a, 0x20];
      assert Join(Cons([0x2d], Cons([0x20], Nil))) == [0x2d, 0x20];
      assert Join(Cons([0x71], Cons([0x75], Cons([0x75], Cons([0x78], Nil))))) == [0x71, 0x75, 0x75, 0x78];
    }
    DashWordsRead();
    DashWordsFit();
    DashWordsBytes();
    ReadWordText(ASCII, DashWordsWords);
  }

  /** "foo bar" read with LF terminators. */
  const PlainCharsText: Bytes := [0x66, 0x6f, 0x6f, 0x20, 0x62, 0x61, 0x72]
  const PlainCharsChars: Groups := GCons(Cons([0x66], Cons([0x6f], Cons([0x6f], Cons([0x20], Nil)))), GCons(Cons([0x62], Cons([0x61], Cons([0x72], Nil))), GNil))

  lemma PlainCharsRead()
    ensures CharsRead(ASCII, LF, PlainCharsChars)
  {
  }

  lemma PlainCharsBytes()
    ensures GroupBytes(PlainCharsChars) == PlainCharsText
  {
  }

  lemma PlainCharsTokens()
    ensures GroupTokens(PlainCharsChars) == [[0x66], [0x6f], [0x6f], [0x20], [0x62], [0x61], [0x72]]
  {
  }

  /** test_ascii_to_char */
  lemma ToCharCase()
    ensures ToChar(ASCII, LF, PlainCharsText) == [[0x66], [0x6f], [0x6f], [0x20], [0x62], [0x61], [0x72]]
  {
    PlainCharsRead();
    PlainCharsBytes();
    PlainCharsTokens();
    ReadChars(ASCII, LF, PlainCharsChars);
  }

  /** "foo bar\r" read with CR terminators. */
  const CrCharsText: Bytes := [0x66, 0x6f, 0x6f, 0x20, 0x62, 0x61, 0x72, 0x0d]
  const CrCharsChars: Groups := GCons(Cons([0x66], Cons([0x6f], Cons([0x6f], Cons([0x20], Nil)))), GCons(Cons([0x62], Cons([0x61], Cons([0x72], Cons([0x0d], Nil)))), GNil))

  lemma CrCharsRead()
    ensures CharsRead(ASCII, CR, CrCharsChars)
  {
  }

  lemma CrCharsBytes()
    ensures GroupBytes(CrCharsChars) == CrCharsText
  {
  }

  lemma CrCharsTokens()
    ensures GroupTokens(CrCharsChars) == [[0x66], [0x6f], [0x6f], [0x20], [0x62], [0x61], [0x72], [0x0d]]
  {
  }

  /** test_ascii_to_char_with_eol_cr */
  lemma ToCharWithEolCrCase()
    ensures ToChar(ASCII, CR, CrCharsText) == [[0x66], [0x6f], [0x6f], [0x20], [0x62], [0x61], [0x72], [0x0d]]
  {
    CrCharsRead();
    CrCharsBytes();
    CrCharsTokens();
    ReadChars(ASCII, CR, CrCharsChars);
  }

  /** "foo bar\n" read with LF terminators. */
  const LfCharsText: Bytes := [0x66, 0x6f, 0x6f, 0x20, 0x62, 0x61, 0x72, 0x0a]
  const LfCharsChars: Groups := GCons(Cons([0x66], Cons([0x6f], Cons([0x6f], Cons([0x20], Nil)))), GCons(Cons([0x62], Cons([0x61], Cons([0x72], Cons([0x0a], Nil)))), GNil))

  lemma LfCharsRead()
    ensures CharsRead(ASCII, LF, LfCharsChars)
  {
  }

  lemma LfCharsBytes()
    ensures GroupBytes(LfCharsChars) == LfCharsText
  {
  }

  lemma LfCharsTokens()
    ensures GroupTokens(LfCharsChars) == [[0x66], [0x6f], [0x6f], [0x20], [0x62], [0x61], [0x72], [0x0a]]
  {
  }

  /** test_ascii_to_char_with_eol_lf */
  lemma ToCharWithEolLfCase()
    ensures ToChar(ASCII, LF, LfCharsText) == [[0x66], [0x6f], [0x6f], [0x20], [0x62], [0x61], [0x72], [0x0a]]
  {
    LfCharsRead();
    LfCharsBytes();
    LfCharsTokens();
    ReadChars(ASCII, LF, LfCharsChars);
  }

  /** "foo bar\r\n" read with CRLF terminators. */
  const CrlfCharsText: Bytes := [0x66, 0x6f, 0x6f, 0x20, 0x62, 0x61, 0x72, 0x0d, 0x0a]
  const CrlfCharsChars: Groups := GCons(Cons([0x66], Cons([0x6f], Cons([0x6f], Cons([0x20], Nil)))), GCons(Cons([0x62], Cons([0x61], Cons([0x72], Cons([0x0d, 0x0a], Nil)))), GNil))

  lemma CrlfCharsRead()
    ensures CharsRead(ASCII, CRLF, CrlfCharsChars)
  {
  }

  lemma CrlfCharsBytes()
    ensures GroupBytes(CrlfCharsChars) == CrlfCharsText
  {
  }

  lemma CrlfCharsTokens()
    ensures GroupTokens(CrlfCharsChars) == [[0x66], [0x6f], [0x6f], [0x20], [0x62], [0x61], [0x72], [0x0d, 0x0a]]
  {
  }

  /** test_ascii_to_char_with_eol_crlf */
  lemma ToCharWithEolCrlfCase()
    ensures ToChar(ASCII, CRLF, CrlfCharsText) == [[0x66], [0x6f], [0x6f], [0x20], [0x62], [0x61], [0x72], [0x0d, 0x0a]]
  {
    CrlfCharsRead();
    CrlfCharsBytes();
    CrlfCharsTokens();
    ReadChars(ASCII, CRLF, CrlfCharsChars);
  }

  /** "foo bar\r\n": a CR LF pair is two bytes whatever the end-of-line
      tag. */
  const ByteText: Bytes := [0x66, 0x6f, 0x6f, 0x20, 0x62, 0x61, 0x72, 0x0d, 0x0a]

  /** test_ascii_to_byte */
  lemma ToByteCase()
    ensures ToByte(ByteText) == [[0x66], [0x6f], [0x6f], [0x20], [0x62], [0x61], [0x72], [0x0d], [0x0a]]
  {
  }

  /** test_ascii_count_byte */
  lemma CountByteCase()
    ensures CountByte(ByteText) == 9
  {
  }

  /** "foo bar\r\nbaz quux\r\n" read with CRLF terminators. */
  const GraphText: Bytes := [0x66, 0x6f, 0x6f, 0x20, 0x62, 0x61, 0x72, 0x0d, 0x0a, 0x62, 0x61, 0x7a, 0x20, 0x71, 0x75, 0x75, 0x78, 0x0d, 0x0a]
  const GraphChars: Groups := GCons(Cons([0x66], Cons([0x6f], Cons([0x6f], Cons([0x20], Nil)))), GCons(Cons([0x62], Cons([0x61], Cons([0x72], Cons([0x0d, 0x0a], Nil)))), GCons(Cons([0x62], Cons([0x61], Cons([0x7a], Cons([0x20], Nil)))), GCons(Cons([0x71], Cons([0x75], Cons([0x75], Cons([0x78], Nil)))), GCons(Cons([0x0d, 0x0a], Nil), GNil)))))

  lemma GraphRead()
    ensures CharsRead(ASCII, CRLF, GraphChars)
  {
  }

  lemma GraphBytes()
    ensures GroupBytes(GraphChars) == GraphText
  {
  }

  lemma GraphKinds()
    ensures KindOf(ASCII, [0x0d, 0x0a]) == Break
  {
  }

  lemma GraphLatinGraph()
    ensures ClassCount(Classifier(ASCII), GraphChars, LatinGraph) == 13
  {
    GraphKinds();
  }

  lemma GraphJaGraph()
    ensures ClassCount(Classifier(ASCII), GraphChars, JaGraph) == 0
  {
    GraphKinds();
  }

  lemma GraphLength()
    ensures |GroupTokens(GraphChars)| == 17
  {
  }

  /** test_ascii_count_char */
  lemma CountCharCase()
    ensures CountChar(ASCII, CRLF, GraphText) == 17
  {
    GraphRead();
    GraphBytes();
    GraphLength();
    CharCountOfGroups(ASCII, CRLF, GraphChars, GraphText);
  }

  /** test_ascii_count_latin_graph_char */
  lemma CountLatinGraphCharCase()
    ensures CountLatinGraphChar(ASCII, CRLF, GraphText) == 13
  {
    GraphRead();
    GraphBytes();
    GraphLatinGraph();
    ClassCountOfGroups(ASCII, CRLF, GraphChars, GraphText, LatinGraph);
  }

  /** test_ascii_count_graph_char */
  lemma CountGraphCharCase()
    ensures CountGraphChar(ASCII, CRLF, GraphText) == 13
  {
    GraphRead();
    GraphBytes();
    GraphLatinGraph();
    ClassCountOfGroups(ASCII, CRLF, GraphChars, GraphText, LatinGraph);
    GraphJaGraph();
    ClassCountOfGroups(ASCII, CRLF, GraphChars, GraphText, JaGraph);
    CharCountsPartition(ASCII, CRLF, GraphText);
  }

  /** "foo bar\r\nbaz\tquux\r\n" read with CRLF terminators. */
  const BlankText: Bytes := [0x66, 0x6f, 0x6f, 0x20, 0x62, 0x61, 0x72, 0x0d, 0x0a, 0x62, 0x61, 0x7a, 0x09, 0x71, 0x75, 0x75, 0x78, 0x0d, 0x0a]
  const BlankChars: Groups := GCons(Cons([0x66], Cons([0x6f], Cons([0x6f], Cons([0x20], Nil)))), GCons(Cons([0x62], Cons([0x61], Cons([0x72], Cons([0x0d, 0x0a], Nil)))), GCons(Cons([0x62], Cons([0x61], Cons([0x7a], Cons([0x09], Nil)))), GCons(Cons([0x71], Cons([0x75], Cons([0x75], Cons([0x78], Nil)))), GCons(Cons([0x0d, 0x0a], Nil), GNil)))))

  lemma BlankRead()
    ensures CharsRead(ASCII, CRLF, BlankChars)
  {
  }

  lemma BlankBytes()
    ensures GroupBytes(BlankChars) == BlankText
  {
  }

  lemma BlankKinds()
    ensures KindOf(ASCII, [0x0d, 0x0a]) == Break
  {
  }

  lemma BlankLatinBlank()
    ensures ClassCount(Classifier(ASCII), BlankChars, LatinBlank) == 2
  {
    BlankKinds();
  }

  lemma BlankJaBlank()
    ensures ClassCount(Classifier(ASCII), BlankChars, JaBlank) == 0
  {
    BlankKinds();
  }

  /** test_ascii_count_latin_blank_char */
  lemma CountLatinBlankCharCase()
    ensures CountLatinBlankChar(ASCII, CRLF, BlankText) == 2
  {
    BlankRead();
    BlankBytes();
    BlankLatinBlank();
    ClassCountOfGroups(ASCII, CRLF, BlankChars, BlankText, LatinBlank);
  }

  /** test_ascii_count_blank_char */
  lemma CountBlankCharCase()
    ensures CountBlankChar(ASCII, CRLF, BlankText) == 2
  {
    BlankRead();
    BlankBytes();
    BlankLatinBlank();
    ClassCountOfGroups(ASCII, CRLF, BlankChars, BlankText, LatinBlank);
    BlankJaBlank();
    ClassCountOfGroups(ASCII, CRLF, BlankChars, BlankText, JaBlank);
    CharCountsPartition(ASCII, CRLF, BlankText);
  }

  /** "foo bar   \r\nbaz quux\r\n", whose words are "foo ", "bar ", "  \r\n", "baz ", "quux", "\r\n". */
  const SpacedText: Bytes := [0x66, 0x6f, 0x6f, 0x20, 0x62, 0x61, 0x72, 0x20, 0x20, 0x20, 0x0d, 0x0a, 0x62, 0x61, 0x7a, 0x20, 0x71, 0x75, 0x75, 0x78, 0x0d, 0x0a]
  const SpacedWords: Groups := GCons(Cons([0x66], Cons([0x6f], Cons([0x6f], Cons([0x20], Nil)))), GCons(Cons([0x62], Cons([0x61], Cons([0x72], Cons([0x20], Nil)))), GCons(Cons([0x20], Cons([0x20], Cons([0x0d], Cons([0x0a], Nil)))), GCons(Cons([0x62], Cons([0x61], Cons([0x7a], Cons([0x20], Nil)))), GCons(Cons([0x71], Cons([0x75], Cons([0x75], Cons([0x78], Nil)))), GCons(Cons([0x0d], Cons([0x0a], Nil)), GNil))))))

  lemma SpacedRead()
    ensures CharsRead(ASCII, NONE, SpacedWords)
  {
  }

  lemma SpacedWord0()
    ensures WordFits(Classifier(ASCII), Cons([0x66], Cons([0x6f], Cons([0x6f], Cons([0x20], Nil)))), Cons([0x62], Cons([0x61], Cons([0x72], Cons([0x20], Nil)))))
  {
  }

  lemma SpacedWord1()
    ensures WordFits(Classifier(ASCII), Cons([0x62], Cons([0x61], Cons([0x72], Cons([0x20], Nil)))), Cons([0x20], Cons([0x20], Cons([0x0d], Cons([0x0a], Nil)))))
  {
  }

  lemma SpacedWord2()
    ensures WordFits(Classifier(ASCII), Cons([0x20], Cons([0x20], Cons([0x0d], Cons([0x0a], Nil)))), Cons([0x62], Cons([0x61], Cons([0x7a], Cons([0x20], Nil)))))
  {
  }

  lemma SpacedWord3()
    ensures WordFits(Classifier(ASCII), Cons([0x62], Cons([0x61], Cons([0x7a], Cons([0x20], Nil)))), Cons([0x71], Cons([0x75], Cons([0x75], Cons([0x78], Nil)))))
  {
  }

  lemma SpacedWord4()
    ensures WordFits(Classifier(ASCII), Cons([0x71], Cons([0x75], Cons([0x75], Cons([0x78], Nil)))), Cons([0x0d], Cons([0x0a], Nil)))
  {
  }

  lemma SpacedWord5()
    ensures WordFits(Classifier(ASCII), Cons([0x0d], Cons([0x0a], Nil)), Nil)
  {
  }

  lemma SpacedFit()
    ensures WordsRead(Classifier(ASCII), SpacedWords)
  {
    SpacedWord0(); SpacedWord1(); SpacedWord2(); SpacedWord3(); SpacedWord4(); SpacedWord5();
  }

  lemma SpacedBytes()
    ensures GroupBytes(SpacedWords) == SpacedText
  {
  }

  lemma SpacedAnyWordTally()
    ensures WordCount(Classifier(ASCII), AnyWord, SpacedWords) == 6
  {
  }

  /** test_ascii_count_word */
  lemma CountWordCase()
    ensures CountWordsOf(ASCII, AnyWord, SpacedText) == 6
  {
    SpacedRead();
    SpacedFit();
    SpacedBytes();
    SpacedAnyWordTally();
    WordCountOfGroups(ASCII, AnyWord, SpacedWords, SpacedText);
  }

  lemma SpacedLatinWordTally()
    ensures WordCount(Classifier(ASCII), LatinWord, SpacedWords) == 5
  {
  }

  /** test_ascii_count_latin_word */
  lemma CountLatinWordCase()
    ensures CountWordsOf(ASCII, LatinWord, SpacedText) == 5
  {
    SpacedRead();
    SpacedFit();
    SpacedBytes();
    SpacedLatinWordTally();
    WordCountOfGroups(ASCII, LatinWord, SpacedWords, SpacedText);
  }

  /** "1 foo   \r\n%%% ()\r\n", whose words are "1 ", "foo ", "  \r\n", "%%% ", "()", "\r\n". */
  const SymbolsText: Bytes := [0x31, 0x20, 0x66, 0x6f, 0x6f, 0x20, 0x20, 0x20, 0x0d, 0x0a, 0x25, 0x25, 0x25, 0x20, 0x28, 0x29, 0x0d, 0x0a]
  const SymbolsWords: Groups := GCons(Cons([0x31], Cons([0x20], Nil)), GCons(Cons([0x66], Cons([0x6f], Cons([0x6f], Cons([0x20], Nil)))), GCons(Cons([0x20], Cons([0x20], Cons([0x0d], Cons([0x0a], Nil)))), GCons(Cons([0x25], Cons([0x25], Cons([0x25], Cons([0x20], Nil)))), GCons(Cons([0x28], Cons([0x29], Nil)), GCons(Cons([0x0d], Cons([0x0a], Nil)), GNil))))))

  lemma SymbolsRead()
    ensures CharsRead(ASCII, NONE, SymbolsWords)
  {
  }

  lemma SymbolsWord0()
    ensures WordFits(Classifier(ASCII), Cons([0x31], Cons([0x20], Nil)), Cons([0x66], Cons([0x6f], Cons([0x6f], Cons([0x20], Nil)))))
  {
  }

  lemma SymbolsWord1()
    ensures WordFits(Classifier(ASCII), Cons([0x66], Cons([0x6f], Cons([0x6f], Cons([0x20], Nil)))), Cons([0x20], Cons([0x20], Cons([0x0d], Cons([0x0a], Nil)))))
  {
  }

  lemma SymbolsWord2()
    ensures WordFits(Classifier(ASCII), Cons([0x20], Cons([0x20], Cons([0x0d], Cons([0x0a], Nil)))), Cons([0x25], Cons([0x25], Cons([0x25], Cons([0x20], Nil)))))
  {
  }

  lemma SymbolsWord3()
    ensures WordFits(Classifier(ASCII), Cons([0x25], Cons([0x25], Cons([0x25], Cons([0x20], Nil)))), Cons([0x28], Cons([0x29], Nil)))
  {
  }

  lemma SymbolsWord4()
    ensures WordFits(Classifier(ASCII), Cons([0x28], Cons([0x29], Nil)), Cons([0x0d], Cons([0x0a], Nil)))
  {
  }

  lemma SymbolsWord5()
    ensures WordFits(Classifier(ASCII), Cons([0x0d], Cons([0x0a], Nil)), Nil)
  {
  }

  lemma SymbolsFit()
    ensures WordsRead(Classifier(ASCII), SymbolsWords)
  {
    SymbolsWord0(); SymbolsWord1(); SymbolsWord2(); SymbolsWord3(); SymbolsWord4(); SymbolsWord5();
  }

  lemma SymbolsBytes()
    ensures GroupBytes(SymbolsWords) == SymbolsText
  {
  }

  lemma SymbolsLatinValidWordTally()
    ensures WordCount(Classifier(ASCII), LatinValidWord, SymbolsWords) == 2
  {
  }

  /** test_ascii_count_latin_valid_word */
  lemma CountLatinValidWordCase()
    ensures CountWordsOf(ASCII, LatinValidWord, SymbolsText) == 2
  {
    SymbolsRead();
    SymbolsFit();
    SymbolsBytes();
    SymbolsLatinValidWordTally();
    WordCountOfGroups(ASCII, LatinValidWord, SymbolsWords, SymbolsText);
  }

  /** "foo\r\nbar" read with CRLF terminators, line by line. */
  const TwoLinesText: Bytes := [0x66, 0x6f, 0x6f, 0x0d, 0x0a, 0x62, 0x61, 0x72]
  const TwoLinesRows: Rows := RCons(Cons([0x66], Cons([0x6f], Cons([0x6f], Nil))), [0x0d, 0x0a], RCons(Cons([0x62], Cons([0x61], Cons([0x72], Nil))), [], RNil))

  lemma TwoLinesRead()
    ensures RowsRead(ASCII, CRLF, TwoLinesRows)
  {
  }

  lemma TwoLinesBytes()
    ensures RowBytes(TwoLinesRows) == TwoLinesText
  {
  }

  lemma TwoLinesLine0()
    ensures RowKind(ASCII, Cons([0x66], Cons([0x6f], Cons([0x6f], Nil)))) == GraphLine
  {
  }

  lemma TwoLinesLine1()
    ensures RowKind(ASCII, Cons([0x62], Cons([0x61], Cons([0x72], Nil)))) == GraphLine
  {
  }

  /** test_ascii_count_line */
  lemma CountLineCase()
    ensures CountLine(CRLF, TwoLinesText) == 2
  {
    TwoLinesRead(); TwoLinesBytes();
    LineCountsOfRows(ASCII, CRLF, EmptyLine, TwoLinesRows, TwoLinesText);
  }

  /** "foo\r\n " read with CRLF terminators, line by line. */
  const BlankLastText: Bytes := [0x66, 0x6f, 0x6f, 0x0d, 0x0a, 0x20]
  const BlankLastRows: Rows := RCons(Cons([0x66], Cons([0x6f], Cons([0x6f], Nil))), [0x0d, 0x0a], RCons(Cons([0x20], Nil), [], RNil))

  lemma BlankLastRead()
    ensures RowsRead(ASCII, CRLF, BlankLastRows)
  {
  }

  lemma BlankLastBytes()
    ensures RowBytes(BlankLastRows) == BlankLastText
  {
  }

  lemma BlankLastLine0()
    ensures RowKind(ASCII, Cons([0x66], Cons([0x6f], Cons([0x6f], Nil)))) == GraphLine
  {
  }

  lemma BlankLastLine1()
    ensures RowKind(ASCII, Cons([0x20], Nil)) == BlankLine
  {
  }

  lemma BlankLastGraphLineTally()
    ensures RowCount(ASCII, GraphLine, BlankLastRows) == 1
  {
    BlankLastLine0(); BlankLastLine1();
  }

  /** test_ascii_count_graph_line */
  lemma CountGraphLineCase()
    ensures CountLinesOf(ASCII, CRLF, GraphLine, BlankLastText) == 1
  {
    BlankLastRead(); BlankLastBytes(); BlankLastGraphLineTally();
    LineCountsOfRows(ASCII, CRLF, GraphLine, BlankLastRows, BlankLastText);
  }

  /** "foo\r\n \r\n\t\r\n\r\n" read with CRLF terminators, line by line. */
  const EmptyLastText: Bytes := [0x66, 0x6f, 0x6f, 0x0d, 0x0a, 0x20, 0x0d, 0x0a, 0x09, 0x0d, 0x0a, 0x0d, 0x0a]
  const EmptyLastRows: Rows := RCons(Cons([0x66], Cons([0x6f], Cons([0x6f], Nil))), [0x0d, 0x0a], RCons(Cons([0x20], Nil), [0x0d, 0x0a], RCons(Cons([0x09], Nil), [0x0d, 0x0a], RCons(Nil, [0x0d, 0x0a], RNil))))

  lemma EmptyLastRead()
    ensures RowsRead(ASCII, CRLF, EmptyLastRows)
  {
  }

  lemma EmptyLastBytes()
    ensures RowBytes(EmptyLastRows) == EmptyLastText
  {
  }

  lemma EmptyLastLine0()
    ensures RowKind(ASCII, Cons([0x66], Cons([0x6f], Cons([0x6f], Nil)))) == GraphLine
  {
  }

  lemma EmptyLastLine1()
    ensures RowKind(ASCII, Cons([0x20], Nil)) == BlankLine
  {
  }

  lemma EmptyLastLine2()
    ensures RowKind(ASCII, Cons([0x09], Nil)) == BlankLine
  {
  }

  lemma EmptyLastLine3()
    ensures RowKind(ASCII, Nil) == EmptyLine
  {
  }

  lemma EmptyLastEmptyLineTally()
    ensures RowCount(ASCII, EmptyLine, EmptyLastRows) == 1
  {
    EmptyLastLine0(); EmptyLastLine1(); EmptyLastLine2(); EmptyLastLine3();
  }

  /** test_ascii_count_empty_line */
  lemma CountEmptyLineCase()
    ensures CountLinesOf(ASCII, CRLF, EmptyLine, EmptyLastText) == 1
  {
    EmptyLastRead(); EmptyLastBytes(); EmptyLastEmptyLineTally();
    LineCountsOfRows(ASCII, CRLF, EmptyLine, EmptyLastRows, EmptyLastText);
  }

  /** "\r\n \r\n\t\r\n " read with CRLF terminators, line by line. */
  const EmptyFirstText: Bytes := [0x0d, 0x0a, 0x20, 0x0d, 0x0a, 0x09, 0x0d, 0x0a, 0x20]
  const EmptyFirstRows: Rows := RCons(Nil, [0x0d, 0x0a], RCons(Cons([0x20], Nil), [0x0d, 0x0a], RCons(Cons([0x09], Nil), [0x0d, 0x0a], RCons(Cons([0x20], Nil), [], RNil))))

  lemma EmptyFirstRead()
    ensures RowsRead(ASCII, CRLF, EmptyFirstRows)
  {
  }

  lemma EmptyFirstBytes()
    ensures RowBytes(EmptyFirstRows) == EmptyFirstText
  {
  }

  lemma EmptyFirstLine0()
    ensures RowKind(ASCII, Nil) == EmptyLine
  {
  }

  lemma EmptyFirstLine1()
    ensures RowKind(ASCII, Cons([0x20], Nil)) == BlankLine
  {
  }

  lemma EmptyFirstLine2()
    ensures RowKind(ASCII, Cons([0x09], Nil)) == BlankLine
  {
  }

  lemma EmptyFirstLine3()
    ensures RowKind(ASCII, Cons([0x20], Nil)) == BlankLine
  {
  }

  lemma EmptyFirstBlankLineTally()
    ensures RowCount(ASCII, BlankLine, EmptyFirstRows) == 3
  {
    EmptyFirstLine0(); EmptyFirstLine1(); EmptyFirstLine2(); EmptyFirstLine3();
  }

  /** test_ascii_count_blank_line */
  lemma CountBlankLineCase()
    ensures CountLinesOf(ASCII, CRLF, BlankLine, EmptyFirstText) == 3
  {
    EmptyFirstRead(); EmptyFirstBytes(); EmptyFirstBlankLineTally();
    LineCountsOfRows(ASCII, CRLF, BlankLine, EmptyFirstRows, EmptyFirstText);
  }
}
