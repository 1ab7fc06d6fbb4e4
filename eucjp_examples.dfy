/** The EUC-JP cases of the test suite. */
module EucJpExamples {
  import opened ByteStrings
  import opened Tags
  import opened EncodingTable
  import opened Chars
  import opened Lines
  import opened Words
  import opened Counters
  import opened Literals

  /** "日本語の文字foo bar". */
  const MixedWordsText: Bytes := [0xc6, 0xfc, 0xcb, 0xdc, 0xb8, 0xec, 0xa4, 0xce, 0xca, 0xb8, 0xbb, 0xfa, 0x66, 0x6f, 0x6f, 0x20, 0x62, 0x61, 0x72]
  const MixedWordsWords: Groups := GCons(Cons([0xc6, 0xfc], Cons([0xcb, 0xdc], Cons([0xb8, 0xec], Cons([0xa4, 0xce], Nil)))), GCons(Cons([0xca, 0xb8], Cons([0xbb, 0xfa], Nil)), GCons(Cons([0x66], Cons([0x6f], Cons([0x6f], Cons([0x20], Nil)))), GCons(Cons([0x62], Cons([0x61], Cons([0x72], Nil))), GNil))))

  lemma MixedWordsRead()
    ensures CharsRead(EUC_JP, NONE, MixedWordsWords)
  {
  }

  lemma MixedWordsWord0Kinds()
    ensures KindOf(EUC_JP, [0xc6, 0xfc]) == Kanji
    ensures KindOf(EUC_JP, [0xcb, 0xdc]) == Kanji
    ensures KindOf(EUC_JP, [0xb8, 0xec]) == Kanji
    ensures KindOf(EUC_JP, [0xa4, 0xce]) == Hiragana
    ensures KindOf(EUC_JP, [0xca, 0xb8]) == Kanji
  {
  }

  lemma MixedWordsWord0()
    ensures WordFits(Classifier(EUC_JP), Cons([0xc6, 0xfc], Cons([0xcb, 0xdc], Cons([0xb8, 0xec], Cons([0xa4, 0xce], Nil)))), Cons([0xca, 0xb8], Cons([0xbb, 0xfa], Nil)))
  {
    MixedWordsWord0Kinds();
  }

  lemma MixedWordsWord1Kinds()
    ensures KindOf(EUC_JP, [0xca, 0xb8]) == Kanji
    ensures KindOf(EUC_JP, [0xbb, 0xfa]) == Kanji
  {
  }

  lemma MixedWordsWord1()
    ensures WordFits(Classifier(EUC_JP), Cons([0xca, 0xb8], Cons([0xbb, 0xfa], Nil)), Cons([0x66], Cons([0x6f], Cons([0x6f], Cons([0x20], Nil)))))
  {
    MixedWordsWord1Kinds();
  }

  lemma MixedWordsWord2()
    ensures WordFits(Classifier(EUC_JP), Cons([0x66], Cons([0x6f], Cons([0x6f], Cons([0x20], Nil)))), Cons([0x62], Cons([0x61], Cons([0x72], Nil))))
  {
  }

  lemma MixedWordsWord3()
    ensures WordFits(Classifier(EUC_JP), Cons([0x62], Cons([0x61], Cons([0x72], Nil))), Nil)
  {
  }

  lemma MixedWordsFit()
    ensures WordsRead(Classifier(EUC_JP), MixedWordsWords)
  {
    MixedWordsWord0(); MixedWordsWord1(); MixedWordsWord2(); MixedWordsWord3();
  }

  lemma MixedWordsBytes()
    ensures GroupBytes(MixedWordsWords) == MixedWordsText
  {
  }

  /** test_eucjp_to_word */
  lemma ToWordCase()
    ensures ToWord(EUC_JP, MixedWordsText) == [[0xc6, 0xfc, 0xcb, 0xdc, 0xb8, 0xec, 0xa4, 0xce], [0xca, 0xb8, 0xbb, 0xfa], [0x66, 0x6f, 0x6f, 0x20], [0x62, 0x61, 0x72]]
  {
    assert GroupFlats(MixedWordsWords) == [[0xc6, 0xfc, 0xcb, 0xdc, 0xb8, 0xec, 0xa4, 0xce], [0xca, 0xb8, 0xbb, 0xfa], [0x66, 0x6f, 0x6f, 0x20], [0x62, 0x61, 0x72]] by {
      assert Join(Cons([0xc6, 0xfc], Cons([0xcb, 0xdc], Cons([0xb8, 0xec], Cons([0xa4, 0xce], Nil))))) == [0xc6, 0xfc, 0xcb, 0xdc, 0xb8, 0xec, 0xa4, 0xce];
      assert Join(Cons([0xca, 0xb8], Cons([0xbb, 0xfa], Nil))) == [0xca, 0xb8, 0xbb, 0xfa];
      assert Join(Cons([0x66], Cons([0x6f], Cons([0x6f], Cons([0x20], Nil))))) == [0x66, 0x6f, 0x6f, 0x20];
      assert Join(Cons([0x62], Cons([0x61], Cons([0x72], Nil)))) == [0x62, 0x61, 0x72];
    }
    MixedWordsRead();
    MixedWordsFit();
    MixedWordsBytes();
    ReadWordText(EUC_JP, MixedWordsWords);
  }

  /** "日本語の文字". */
  const KanHiraWordsText: Bytes := [0xc6, 0xfc, 0xcb, 0xdc, 0xb8, 0xec, 0xa4, 0xce, 0xca, 0xb8, 0xbb, 0xfa]
  const KanHiraWordsWords: Groups := GCons(Cons([0xc6, 0xfc], Cons([0xcb, 0xdc], Cons([0xb8, 0xec], Cons([0xa4, 0xce], Nil)))), GCons(Cons([0xca, 0xb8], Cons([0xbb, 0xfa], Nil)), GNil))

  lemma KanHiraWordsRead()
    ensures CharsRead(EUC_JP, NONE, KanHiraWordsWords)
  {
  }

  lemma KanHiraWordsWord0Kinds()
    ensures KindOf(EUC_JP, [0xc6, 0xfc]) == Kanji
    ensures KindOf(EUC_JP, [0xcb, 0xdc]) == Kanji
    ensures KindOf(EUC_JP, [0xb8, 0xec]) == Kanji
    ensures KindOf(EUC_JP, [0xa4, 0xce]) == Hiragana
    ensures KindOf(EUC_JP, [0xca, 0xb8]) == Kanji
  {
  }

  lemma KanHiraWordsWord0()
    ensures WordFits(Classifier(EUC_JP), Cons([0xc6, 0xfc], Cons([0xcb, 0xdc], Cons([0xb8, 0xec], Cons([0xa4, 0xce], Nil)))), Cons([0xca, 0xb8], Cons([0xbb, 0xfa], Nil)))
  {
    KanHiraWordsWord0Kinds();
  }

  lemma KanHiraWordsWord1Kinds()
    ensures KindOf(EUC_JP, [0xca, 0xb8]) == Kanji
    ensures KindOf(EUC_JP, [0xbb, 0xfa]) == Kanji
  {
  }

  lemma KanHiraWordsWord1()
    ensures WordFits(Classifier(EUC_JP), Cons([0xca, 0xb8], Cons([0xbb, 0xfa], Nil)), Nil)
  {
    KanHiraWordsWord1Kinds();
  }

  lemma KanHiraWordsFit()
    ensures WordsRead(Classifier(EUC_JP), KanHiraWordsWords)
  {
    KanHiraWordsWord0(); KanHiraWordsWord1();
  }

  lemma KanHiraWordsBytes()
    ensures GroupBytes(KanHiraWordsWords) == KanHiraWordsText
  {
  }

  /** test_eucjp_to_word_kanhira */
  lemma ToWordKanhiraCase()
    ensures ToWord(EUC_JP, KanHiraWordsText) == [[0xc6, 0xfc, 0xcb, 0xdc, 0xb8, 0xec, 0xa4, 0xce], [0xca, 0xb8, 0xbb, 0xfa]]
  {
    assert GroupFlats(KanHiraWordsWords) == [[0xc6, 0xfc, 0xcb, 0xdc, 0xb8, 0xec, 0xa4, 0xce], [0xca, 0xb8, 0xbb, 0xfa]] by {
      assert Join(Cons([0xc6, 0xfc], Cons([0xcb, 0xdc], Cons([0xb8, 0xec], Cons([0xa4, 0xce], Nil))))) == [0xc6, 0xfc, 0xcb, 0xdc, 0xb8, 0xec, 0xa4, 0xce];
      assert Join(Cons([0xca, 0xb8], Cons([0xbb, 0xfa], Nil))) == [0xca, 0xb8, 0xbb, 0xfa];
    }
    KanHiraWordsRead();
    KanHiraWordsFit();
    KanHiraWordsBytes();
    ReadWordText(EUC_JP, KanHiraWordsWords);
  }

  /** "カタカナの文字". */
  const KataHiraWordsText: Bytes := [0xa5, 0xab, 0xa5, 0xbf, 0xa5, 0xab, 0xa5, 0xca, 0xa4, 0xce, 0xca, 0xb8, 0xbb, 0xfa]
  const KataHiraWordsWords: Groups := GCons(Cons([0xa5, 0xab], Cons([0xa5, 0xbf], Cons([0xa5, 0xab], Cons([0xa5, 0xca], Cons([0xa4, 0xce], Nil))))), GCons(Cons([0xca, 0xb8], Cons([0xbb, 0xfa], Nil)), GNil))

  lemma KataHiraWordsRead()
    ensures CharsRead(EUC_JP, NONE, KataHiraWordsWords)
  {
  }

  lemma KataHiraWordsWord0Kinds()
    ensures KindOf(EUC_JP, [0xa5, 0xab]) == Katakana
    ensures KindOf(EUC_JP, [0xa5, 0xbf]) == Katakana
    ensures KindOf(EUC_JP, [0xa5, 0xca]) == Katakana
    ensures KindOf(EUC_JP, [0xa4, 0xce]) == Hiragana
    ensures KindOf(EUC_JP, [0xca, 0xb8]) == Kanji
  {
  }

  lemma KataHiraWordsWord0()
    ensures WordFits(Classifier(EUC_JP), Cons([0xa5, 0xab], Cons([0xa5, 0xbf], Cons([0xa5, 0xab], Cons([0xa5, 0xca], Cons([0xa4, 0xce], Nil))))), Cons([0xca, 0xb8], Cons([0xbb, 0xfa], Nil)))
  {
    KataHiraWordsWord0Kinds();
  }

  lemma KataHiraWordsWord1Kinds()
    ensures KindOf(EUC_JP, [0xca, 0xb8]) == Kanji
    ensures KindOf(EUC_JP, [0xbb, 0xfa]) == Kanji
  {
  }

  lemma KataHiraWordsWord1()
    ensures WordFits(Classifier(EUC_JP), Cons([0xca, 0xb8], Cons([0xbb, 0xfa], Nil)), Nil)
  {
    KataHiraWordsWord1Kinds();
  }

  lemma KataHiraWordsFit()
    ensures WordsRead(Classifier(EUC_JP), KataHiraWordsWords)
  {
    KataHiraWordsWord0(); KataHiraWordsWord1();
  }

  lemma KataHiraWordsBytes()
    ensures GroupBytes(KataHiraWordsWords) == KataHiraWordsText
  {
  }

  /** test_eucjp_to_word_katahira */
  lemma ToWordKatahiraCase()
    ensures ToWord(EUC_JP, KataHiraWordsText) == [[0xa5, 0xab, 0xa5, 0xbf, 0xa5, 0xab, 0xa5, 0xca, 0xa4, 0xce], [0xca, 0xb8, 0xbb, 0xfa]]
  {
    assert GroupFlats(KataHiraWordsWords) == [[0xa5, 0xab, 0xa5, 0xbf, 0xa5, 0xab, 0xa5, 0xca, 0xa4, 0xce], [0xca, 0xb8, 0xbb, 0xfa]] by {
      assert Join(Cons([0xa5, 0xab], Cons([0xa5, 0xbf], Cons([0xa5, 0xab], Cons([0xa5, 0xca], Cons([0xa4, 0xce], Nil)))))) == [0xa5, 0xab, 0xa5, 0xbf, 0xa5, 0xab, 0xa5, 0xca, 0xa4, 0xce];
      assert Join(Cons([0xca, 0xb8], Cons([0xbb, 0xfa], Nil))) == [0xca, 0xb8, 0xbb, 0xfa];
    }
    KataHiraWordsRead();
    KataHiraWordsFit();
    KataHiraWordsBytes();
    ReadWordText(EUC_JP, KataHiraWordsWords);
  }

  /** "ルビーの指輪". */
  const KataOnbikiWordsText: Bytes := [0xa5, 0xeb, 0xa5, 0xd3, 0xa1, 0xbc, 0xa4, 0xce, 0xbb, 0xd8, 0xce, 0xd8]
  const KataOnbikiWordsWords: Groups := GCons(Cons([0xa5, 0xeb], Cons([0xa5, 0xd3], Cons([0xa1, 0xbc], Cons([0xa4, 0xce], Nil)))), GCons(Cons([0xbb, 0xd8], Cons([0xce, 0xd8], Nil)), GNil))

  lemma KataOnbikiWordsRead()
    ensures CharsRead(EUC_JP, NONE, KataOnbikiWordsWords)
  {
  }

  lemma KataOnbikiWordsWord0Kinds()
    ensures KindOf(EUC_JP, [0xa5, 0xeb]) == Katakana
    ensures KindOf(EUC_JP, [0xa5, 0xd3]) == Katakana
    ensures KindOf(EUC_JP, [0xa1, 0xbc]) == Prolonged
    ensures KindOf(EUC_JP, [0xa4, 0xce]) == Hiragana
    ensures KindOf(EUC_JP, [0xbb, 0xd8]) == Kanji
  {
  }

  lemma KataOnbikiWordsWord0()
    ensures WordFits(Classifier(EUC_JP), Cons([0xa5, 0xeb], Cons([0xa5, 0xd3], Cons([0xa1, 0xbc], Cons([0xa4, 0xce], Nil)))), Cons([0xbb, 0xd8], Cons([0xce, 0xd8], Nil)))
  {
    KataOnbikiWordsWord0Kinds();
  }

  lemma KataOnbikiWordsWord1Kinds()
    ensures KindOf(EUC_JP, [0xbb, 0xd8]) == Kanji
    ensures KindOf(EUC_JP, [0xce, 0xd8]) == Kanji
  {
  }

  lemma KataOnbikiWordsWord1()
    ensures WordFits(Classifier(EUC_JP), Cons([0xbb, 0xd8], Cons([0xce, 0xd8], Nil)), Nil)
  {
    KataOnbikiWordsWord1Kinds();
  }

  lemma KataOnbikiWordsFit()
    ensures WordsRead(Classifier(EUC_JP), KataOnbikiWordsWords)
  {
    KataOnbikiWordsWord0(); KataOnbikiWordsWord1();
  }

  lemma KataOnbikiWordsBytes()
    ensures GroupBytes(KataOnbikiWordsWords) == KataOnbikiWordsText
  {
  }

  /** test_eucjp_to_word_kataonbiki */
  lemma ToWordKataonbikiCase()
    ensures ToWord(EUC_JP, KataOnbikiWordsText) == [[0xa5, 0xeb, 0xa5, 0xd3, 0xa1, 0xbc, 0xa4, 0xce], [0xbb, 0xd8, 0xce, 0xd8]]
  {
    assert GroupFlats(KataOnbikiWordsWords) == [[0xa5, 0xeb, 0xa5, 0xd3, 0xa1, 0xbc, 0xa4, 0xce], [0xbb, 0xd8, 0xce, 0xd8]] by {
      assert Join(Cons([0xa5, 0xeb], Cons([0xa5, 0xd3], Cons([0xa1, 0xbc], Cons([0xa4, 0xce], Nil))))) == [0xa5, 0xeb, 0xa5, 0xd3, 0xa1, 0xbc, 0xa4, 0xce];
      assert Join(Cons([0xbb, 0xd8], Cons([0xce, 0xd8], Nil))) == [0xbb, 0xd8, 0xce, 0xd8];
    }
    KataOnbikiWordsRead();
    KataOnbikiWordsFit();
    KataOnbikiWordsBytes();
    ReadWordText(EUC_JP, KataOnbikiWordsWords);
  }

  /** "わールビーだ". */
  const HiraOnbikiWordsText: Bytes := [0xa4, 0xef, 0xa1, 0xbc, 0xa5, 0xeb, 0xa5, 0xd3, 0xa1, 0xbc, 0xa4, 0xc0]
  const HiraOnbikiWordsWords: Groups := GCons(Cons([0xa4, 0xef], Cons([0xa1, 0xbc], Nil)), GCons(Cons([0xa5, 0xeb], Cons([0xa5, 0xd3], Cons([0xa1, 0xbc], Cons([0xa4, 0xc0], Nil)))), GNil))

  lemma HiraOnbikiWordsRead()
    ensures CharsRead(EUC_JP, NONE, HiraOnbikiWordsWords)
  {
  }

  lemma HiraOnbikiWordsWord0Kinds()
    ensures KindOf(EUC_JP, [0xa4, 0xef]) == Hiragana
    ensures KindOf(EUC_JP, [0xa1, 0xbc]) == Prolonged
    ensures KindOf(EUC_JP, [0xa5, 0xeb]) == Katakana
  {
  }

  lemma HiraOnbikiWordsWord0()
    ensures WordFits(Classifier(EUC_JP), Cons([0xa4, 0xef], Cons([0xa1, 0xbc], Nil)), Cons([0xa5, 0xeb], Cons([0xa5, 0xd3], Cons([0xa1, 0xbc], Cons([0xa4, 0xc0], Nil)))))
  {
    HiraOnbikiWordsWord0Kinds();
  }

  lemma HiraOnbikiWordsWord1Kinds()
    ensures KindOf(EUC_JP, [0xa5, 0xeb]) == Katakana
    ensures KindOf(EUC_JP, [0xa5, 0xd3]) == Katakana
    ensures KindOf(EUC_JP, [0xa1, 0xbc]) == Prolonged
    ensures KindOf(EUC_JP, [0xa4, 0xc0]) == Hiragana
  {
  }

  lemma HiraOnbikiWordsWord1()
    ensures WordFits(Classifier(EUC_JP), Cons([0xa5, 0xeb], Cons([0xa5, 0xd3], Cons([0xa1, 0xbc], Cons([0xa4, 0xc0], Nil)))), Nil)
  {
    HiraOnbikiWordsWord1Kinds();
  }

  lemma HiraOnbikiWordsFit()
    ensures WordsRead(Classifier(EUC_JP), HiraOnbikiWordsWords)
  {
    HiraOnbikiWordsWord0(); HiraOnbikiWordsWord1();
  }

  lemma HiraOnbikiWordsBytes()
    ensures GroupBytes(HiraOnbikiWordsWords) == HiraOnbikiWordsText
  {
  }

  /** test_eucjp_to_word_hiraonbiki */
  lemma ToWordHiraonbikiCase()
    ensures ToWord(EUC_JP, HiraOnbikiWordsText) == [[0xa4, 0xef, 0xa1, 0xbc], [0xa5, 0xeb, 0xa5, 0xd3, 0xa1, 0xbc, 0xa4, 0xc0]]
  {
    assert GroupFlats(HiraOnbikiWordsWords) == [[0xa4, 0xef, 0xa1, 0xbc], [0xa5, 0xeb, 0xa5, 0xd3, 0xa1, 0xbc, 0xa4, 0xc0]] by {
      assert Join(Cons([0xa4, 0xef], Cons([0xa1, 0xbc], Nil))) == [0xa4, 0xef, 0xa1, 0xbc];
      assert Join(Cons([0xa5, 0xeb], Cons([0xa5, 0xd3], Cons([0xa1, 0xbc], Cons([0xa4, 0xc0], Nil))))) == [0xa5, 0xeb, 0xa5, 0xd3, 0xa1, 0xbc, 0xa4, 0xc0];
    }
    HiraOnbikiWordsRead();
    HiraOnbikiWordsFit();
    HiraOnbikiWordsBytes();
    ReadWordText(EUC_JP, HiraOnbikiWordsWords);
  }

  /** "日本語とLatinの文字". */
  const LatinMixWordsText: Bytes := [0xc6, 0xfc, 0xcb, 0xdc, 0xb8, 0xec, 0xa4, 0xc8, 0x4c, 0x61, 0x74, 0x69, 0x6e, 0xa4, 0xce, 0xca, 0xb8, 0xbb, 0xfa]
  const LatinMixWordsWords: Groups := GCons(Cons([0xc6, 0xfc], Cons([0xcb, 0xdc], Cons([0xb8, 0xec], Cons([0xa4, 0xc8], Nil)))), GCons(Cons([0x4c], Cons([0x61], Cons([0x74], Cons([0x69], Cons([0x6e], Nil))))), GCons(Cons([0xa4, 0xce], Nil), GCons(Cons([0xca, 0xb8], Cons([0xbb, 0xfa], Nil)), GNil))))

  lemma LatinMixWordsRead()
    ensures CharsRead(EUC_JP, NONE, LatinMixWordsWords)
  {
  }

  lemma LatinMixWordsWord0Kinds()
    ensures KindOf(EUC_JP, [0xc6, 0xfc]) == Kanji
    ensures KindOf(EUC_JP, [0xcb, 0xdc]) == Kanji
    ensures KindOf(EUC_JP, [0xb8, 0xec]) == Kanji
    ensures KindOf(EUC_JP, [0xa4, 0xc8]) == Hiragana
  {
  }

  lemma LatinMixWordsWord0()
    ensures WordFits(Classifier(EUC_JP), Cons([0xc6, 0xfc], Cons([0xcb, 0xdc], Cons([0xb8, 0xec], Cons([0xa4, 0xc8], Nil)))), Cons([0x4c], Cons([0x61], Cons([0x74], Cons([0x69], Cons([0x6e], Nil))))))
  {
    LatinMixWordsWord0Kinds();
  }

  lemma LatinMixWordsWord1Kinds()
    ensures KindOf(EUC_JP, [0xa4, 0xce]) == Hiragana
  {
  }

  lemma LatinMixWordsWord1()
    ensures WordFits(Classifier(EUC_JP), Cons([0x4c], Cons([0x61], Cons([0x74], Cons([0x69], Cons([0x6e], Nil))))), Cons([0xa4, 0xce], Nil))
  {
    LatinMixWordsWord1Kinds();
  }

  lemma LatinMixWordsWord2Kinds()
    ensures KindOf(EUC_JP, [0xa4, 0xce]) == Hiragana
    ensures KindOf(EUC_JP, [0xca, 0xb8]) == Kanji
  {
  }

  lemma LatinMixWordsWord2()
    ensures WordFits(Classifier(EUC_JP), Cons([0xa4, 0xce], Nil), Cons([0xca, 0xb8], Cons([0xbb, 0xfa], Nil)))
  {
    LatinMixWordsWord2Kinds();
  }

  lemma LatinMixWordsWord3Kinds()
    ensures KindOf(EUC_JP, [0xca, 0xb8]) == Kanji
    ensures KindOf(EUC_JP, [0xbb, 0xfa]) == Kanji
  {
  }

  lemma LatinMixWordsWord3()
    ensures WordFits(Classifier(EUC_JP), Cons([0xca, 0xb8], Cons([0xbb, 0xfa], Nil)), Nil)
  {
    LatinMixWordsWord3Kinds();
  }

  lemma LatinMixWordsFit()
    ensures WordsRead(Classifier(EUC_JP), LatinMixWordsWords)
  {
    LatinMixWordsWord0(); LatinMixWordsWord1(); LatinMixWordsWord2(); LatinMixWordsWord3();
  }

  lemma LatinMixWordsBytes()
    ensures GroupBytes(LatinMixWordsWords) == LatinMixWordsText
  {
  }

  /** test_eucjp_to_word_latinmix */
  lemma ToWordLatinmixCase()
    ensures ToWord(EUC_JP, LatinMixWordsText) == [[0xc6, 0xfc, 0xcb, 0xdc, 0xb8, 0xec, 0xa4, 0xc8], [0x4c, 0x61, 0x74, 0x69, 0x6e], [0xa4, 0xce], [0xca, 0xb8, 0xbb, 0xfa]]
  {
    assert GroupFlats(LatinMixWordsWords) == [[0xc6, 0xfc, 0xcb, 0xdc, 0xb8, 0xec, 0xa4, 0xc8], [0x4c, 0x61, 0x74, 0x69, 0x6e], [0xa4, 0xce], [0xca, 0xb8, 0xbb, 0xfa]] by {
      assert Join(Cons([0xc6, 0xfc], Cons([0xcb, 0xdc], Cons([0xb8, 0xec], Cons([0xa4, 0xc8], Nil))))) == [0xc6, 0xfc, 0xcb, 0xdc, 0xb8, 0xec, 0xa4, 0xc8];
      assert Join(Cons([0x4c], Cons([0x61], Cons([0x74], Cons([0x69], Cons([0x6e], Nil)))))) == [0x4c, 0x61, 0x74, 0x69, 0x6e];
      assert Join(Cons([0xa4, 0xce], Nil)) == [0xa4, 0xce];
      assert Join(Cons([0xca, 0xb8], Cons([0xbb, 0xfa], Nil))) == [0xca, 0xb8, 0xbb, 0xfa];
    }
    LatinMixWordsRead();
    LatinMixWordsFit();
    LatinMixWordsBytes();
    ReadWordText(EUC_JP, LatinMixWordsWords);
  }

  /** "日本語a b" read with LF terminators. */
  const PlainCharsText: Bytes := [0xc6, 0xfc, 0xcb, 0xdc, 0xb8, 0xec, 0x61, 0x20, 0x62]
  const PlainCharsChars: Groups := GCons(Cons([0xc6, 0xfc], Cons([0xcb, 0xdc], Cons([0xb8, 0xec], Cons([0x61], Nil)))), GCons(Cons([0x20], Cons([0x62], Nil)), GNil))

  lemma PlainCharsRead()
    ensures CharsRead(EUC_JP, LF, PlainCharsChars)
  {
  }

  lemma PlainCharsBytes()
    ensures GroupBytes(PlainCharsChars) == PlainCharsText
  {
  }

  lemma PlainCharsTokens()
    ensures GroupTokens(PlainCharsChars) == [[0xc6, 0xfc], [0xcb, 0xdc], [0xb8, 0xec], [0x61], [0x20], [0x62]]
  {
  }

  /** test_eucjp_to_char */
  lemma ToCharCase()
    ensures ToChar(EUC_JP, LF, PlainCharsText) == [[0xc6, 0xfc], [0xcb, 0xdc], [0xb8, 0xec], [0x61], [0x20], [0x62]]
  {
    PlainCharsRead();
    PlainCharsBytes();
    PlainCharsTokens();
    ReadChars(EUC_JP, LF, PlainCharsChars);
  }

  /** "日本語a b\r" read with CR terminators. */
  const CrCharsText: Bytes := [0xc6, 0xfc, 0xcb, 0xdc, 0xb8, 0xec, 0x61, 0x20, 0x62, 0x0d]
  const CrCharsChars: Groups := GCons(Cons([0xc6, 0xfc], Cons([0xcb, 0xdc], Cons([0xb8, 0xec], Cons([0x61], Nil)))), GCons(Cons([0x20], Cons([0x62], Cons([0x0d], Nil))), GNil))

  lemma CrCharsRead()
    ensures CharsRead(EUC_JP, CR, CrCharsChars)
  {
  }

  lemma CrCharsBytes()
    ensures GroupBytes(CrCharsChars) == CrCharsText
  {
  }

  lemma CrCharsTokens()
    ensures GroupTokens(CrCharsChars) == [[0xc6, 0xfc], [0xcb, 0xdc], [0xb8, 0xec], [0x61], [0x20], [0x62], [0x0d]]
  {
  }

  /** test_eucjp_to_char_with_cr */
  lemma ToCharWithCrCase()
    ensures ToChar(EUC_JP, CR, CrCharsText) == [[0xc6, 0xfc], [0xcb, 0xdc], [0xb8, 0xec], [0x61], [0x20], [0x62], [0x0d]]
  {
    CrCharsRead();
    CrCharsBytes();
    CrCharsTokens();
    ReadChars(EUC_JP, CR, CrCharsChars);
  }

  /** "日本語a b\n" read with LF terminators. */
  const LfCharsText: Bytes := [0xc6, 0xfc, 0xcb, 0xdc, 0xb8, 0xec, 0x61, 0x20, 0x62, 0x0a]
  const LfCharsChars: Groups := GCons(Cons([0xc6, 0xfc], Cons([0xcb, 0xdc], Cons([0xb8, 0xec], Cons([0x61], Nil)))), GCons(Cons([0x20], Cons([0x62], Cons([0x0a], Nil))), GNil))

  lemma LfCharsRead()
    ensures CharsRead(EUC_JP, LF, LfCharsChars)
  {
  }

  lemma LfCharsBytes()
    ensures GroupBytes(LfCharsChars) == LfCharsText
  {
  }

  lemma LfCharsTokens()
    ensures GroupTokens(LfCharsChars) == [[0xc6, 0xfc], [0xcb, 0xdc], [0xb8, 0xec], [0x61], [0x20], [0x62], [0x0a]]
  {
  }

  /** test_eucjp_to_char_with_lf */
  lemma ToCharWithLfCase()
    ensures ToChar(EUC_JP, LF, LfCharsText) == [[0xc6, 0xfc], [0xcb, 0xdc], [0xb8, 0xec], [0x61], [0x20], [0x62], [0x0a]]
  {
    LfCharsRead();
    LfCharsBytes();
    LfCharsTokens();
    ReadChars(EUC_JP, LF, LfCharsChars);
  }

  /** "日本語a b\r\n" read with CRLF terminators. */
  const CrlfCharsText: Bytes := [0xc6, 0xfc, 0xcb, 0xdc, 0xb8, 0xec, 0x61, 0x20, 0x62, 0x0d, 0x0a]
  const CrlfCharsChars: Groups := GCons(Cons([0xc6, 0xfc], Cons([0xcb, 0xdc], Cons([0xb8, 0xec], Cons([0x61], Nil)))), GCons(Cons([0x20], Cons([0x62], Cons([0x0d, 0x0a], Nil))), GNil))

  lemma CrlfCharsRead()
    ensures CharsRead(EUC_JP, CRLF, CrlfCharsChars)
  {
  }

  lemma CrlfCharsBytes()
    ensures GroupBytes(CrlfCharsChars) == CrlfCharsText
  {
  }

  lemma CrlfCharsTokens()
    ensures GroupTokens(CrlfCharsChars) == [[0xc6, 0xfc], [0xcb, 0xdc], [0xb8, 0xec], [0x61], [0x20], [0x62], [0x0d, 0x0a]]
  {
  }

  /** test_eucjp_to_char_with_crlf */
  lemma ToCharWithCrlfCase()
    ensures ToChar(EUC_JP, CRLF, CrlfCharsText) == [[0xc6, 0xfc], [0xcb, 0xdc], [0xb8, 0xec], [0x61], [0x20], [0x62], [0x0d, 0x0a]]
  {
    CrlfCharsRead();
    CrlfCharsBytes();
    CrlfCharsTokens();
    ReadChars(EUC_JP, CRLF, CrlfCharsChars);
  }

  /** "日本語a b\r\n" read with CRLF terminators. */
  const GraphText: Bytes := [0xc6, 0xfc, 0xcb, 0xdc, 0xb8, 0xec, 0x61, 0x20, 0x62, 0x0d, 0x0a]
  const GraphChars: Groups := GCons(Cons([0xc6, 0xfc], Cons([0xcb, 0xdc], Cons([0xb8, 0xec], Cons([0x61], Nil)))), GCons(Cons([0x20], Cons([0x62], Cons([0x0d, 0x0a], Nil))), GNil))

  lemma GraphRead()
    ensures CharsRead(EUC_JP, CRLF, GraphChars)
  {
  }

  lemma GraphBytes()
    ensures GroupBytes(GraphChars) == GraphText
  {
  }

  lemma GraphKinds()
    ensures KindOf(EUC_JP, [0xc6, 0xfc]) == Kanji
    ensures KindOf(EUC_JP, [0xcb, 0xdc]) == Kanji
    ensures KindOf(EUC_JP, [0xb8, 0xec]) == Kanji
    ensures KindOf(EUC_JP, [0x0d, 0x0a]) == Break
  {
  }

  lemma GraphLatinGraph()
    ensures ClassCount(Classifier(EUC_JP), GraphChars, LatinGraph) == 2
  {
    GraphKinds();
  }

  lemma GraphJaGraph()
    ensures ClassCount(Classifier(EUC_JP), GraphChars, JaGraph) == 3
  {
    GraphKinds();
  }

  lemma GraphLength()
    ensures |GroupTokens(GraphChars)| == 7
  {
  }

  /** test_eucjp_count_char */
  lemma CountCharCase()
    ensures CountChar(EUC_JP, CRLF, GraphText) == 7
  {
    GraphRead();
    GraphBytes();
    GraphLength();
    CharCountOfGroups(EUC_JP, CRLF, GraphChars, GraphText);
  }

  /** test_eucjp_count_latin_graph_char */
  lemma CountLatinGraphCharCase()
    ensures CountLatinGraphChar(EUC_JP, CRLF, GraphText) == 2
  {
    GraphRead();
    GraphBytes();
    GraphLatinGraph();
    ClassCountOfGroups(EUC_JP, CRLF, GraphChars, GraphText, LatinGraph);
  }

  /** test_eucjp_count_ja_graph_char */
  lemma CountJaGraphCharCase()
    ensures CountJaGraphChar(EUC_JP, CRLF, GraphText) == 3
  {
    GraphRead();
    GraphBytes();
    GraphJaGraph();
    ClassCountOfGroups(EUC_JP, CRLF, GraphChars, GraphText, JaGraph);
  }

  /** test_eucjp_count_graph_char */
  lemma CountGraphCharCase()
    ensures CountGraphChar(EUC_JP, CRLF, GraphText) == 5
  {
    GraphRead();
    GraphBytes();
    GraphLatinGraph();
    ClassCountOfGroups(EUC_JP, CRLF, GraphChars, GraphText, LatinGraph);
    GraphJaGraph();
    ClassCountOfGroups(EUC_JP, CRLF, GraphChars, GraphText, JaGraph);
    CharCountsPartition(EUC_JP, CRLF, GraphText);
  }

  /** "日本語\ta b\r\n" read with CRLF terminators. */
  const TabText: Bytes := [0xc6, 0xfc, 0xcb, 0xdc, 0xb8, 0xec, 0x09, 0x61, 0x20, 0x62, 0x0d, 0x0a]
  const TabChars: Groups := GCons(Cons([0xc6, 0xfc], Cons([0xcb, 0xdc], Cons([0xb8, 0xec], Cons([0x09], Nil)))), GCons(Cons([0x61], Cons([0x20], Cons([0x62], Cons([0x0d, 0x0a], Nil)))), GNil))

  lemma TabRead()
    ensures CharsRead(EUC_JP, CRLF, TabChars)
  {
  }

  lemma TabBytes()
    ensures GroupBytes(TabChars) == TabText
  {
  }

  lemma TabKinds()
    ensures KindOf(EUC_JP, [0xc6, 0xfc]) == Kanji
    ensures KindOf(EUC_JP, [0xcb, 0xdc]) == Kanji
    ensures KindOf(EUC_JP, [0xb8, 0xec]) == Kanji
    ensures KindOf(EUC_JP, [0x0d, 0x0a]) == Break
  {
  }

  lemma TabLatinBlank()
    ensures ClassCount(Classifier(EUC_JP), TabChars, LatinBlank) == 2
  {
    TabKinds();
  }

  /** test_eucjp_count_latin_blank_char */
  lemma CountLatinBlankCharCase()
    ensures CountLatinBlankChar(EUC_JP, CRLF, TabText) == 2
  {
    TabRead();
    TabBytes();
    TabLatinBlank();
    ClassCountOfGroups(EUC_JP, CRLF, TabChars, TabText, LatinBlank);
  }

  /** "日本　語\ta b\r\n" read with CRLF terminators. */
  const BlankText: Bytes := [0xc6, 0xfc, 0xcb, 0xdc, 0xa1, 0xa1, 0xb8, 0xec, 0x09, 0x61, 0x20, 0x62, 0x0d, 0x0a]
  const BlankChars: Groups := GCons(Cons([0xc6, 0xfc], Cons([0xcb, 0xdc], Cons([0xa1, 0xa1], Cons([0xb8, 0xec], Nil)))), GCons(Cons([0x09], Cons([0x61], Cons([0x20], Cons([0x62], Nil)))), GCons(Cons([0x0d, 0x0a], Nil), GNil)))

  lemma BlankRead()
    ensures CharsRead(EUC_JP, CRLF, BlankChars)
  {
  }

  lemma BlankBytes()
    ensures GroupBytes(BlankChars) == BlankText
  {
  }

  lemma BlankKinds()
    ensures KindOf(EUC_JP, [0xc6, 0xfc]) == Kanji
    ensures KindOf(EUC_JP, [0xcb, 0xdc]) == Kanji
    ensures KindOf(EUC_JP, [0xa1, 0xa1]) == WideBlank
    ensures KindOf(EUC_JP, [0xb8, 0xec]) == Kanji
    ensures KindOf(EUC_JP, [0x0d, 0x0a]) == Break
  {
  }

  lemma BlankJaBlank()
    ensures ClassCount(Classifier(EUC_JP), BlankChars, JaBlank) == 1
  {
    BlankKinds();
  }

  lemma BlankLatinBlank()
    ensures ClassCount(Classifier(EUC_JP), BlankChars, LatinBlank) == 2
  {
    BlankKinds();
  }

  /** test_eucjp_count_ja_blank_char */
  lemma CountJaBlankCharCase()
    ensures CountJaBlankChar(EUC_JP, CRLF, BlankText) == 1
  {
    BlankRead();
    BlankBytes();
    BlankJaBlank();
    ClassCountOfGroups(EUC_JP, CRLF, BlankChars, BlankText, JaBlank);
  }

  /** test_eucjp_count_blank_char */
  lemma CountBlankCharCase()
    ensures CountBlankChar(EUC_JP, CRLF, BlankText) == 3
  {
    BlankRead();
    BlankBytes();
    BlankLatinBlank();
    ClassCountOfGroups(EUC_JP, CRLF, BlankChars, BlankText, LatinBlank);
    BlankJaBlank();
    ClassCountOfGroups(EUC_JP, CRLF, BlankChars, BlankText, JaBlank);
    CharCountsPartition(EUC_JP, CRLF, BlankText);
  }

  /** "日本　語a b --\r\n", whose words are "日本", "　", "語", "a ", "b ", "--", "\r\n". */
  const SpacedText: Bytes := [0xc6, 0xfc, 0xcb, 0xdc, 0xa1, 0xa1, 0xb8, 0xec, 0x61, 0x20, 0x62, 0x20, 0x2d, 0x2d, 0x0d, 0x0a]
  const SpacedWords: Groups := GCons(Cons([0xc6, 0xfc], Cons([0xcb, 0xdc], Nil)), GCons(Cons([0xa1, 0xa1], Nil), GCons(Cons([0xb8, 0xec], Nil), GCons(Cons([0x61], Cons([0x20], Nil)), GCons(Cons([0x62], Cons([0x20], Nil)), GCons(Cons([0x2d], Cons([0x2d], Nil)), GCons(Cons([0x0d], Cons([0x0a], Nil)), GNil)))))))

  lemma SpacedRead()
    ensures CharsRead(EUC_JP, NONE, SpacedWords)
  {
  }

  lemma SpacedWord0Kinds()
    ensures KindOf(EUC_JP, [0xc6, 0xfc]) == Kanji
    ensures KindOf(EUC_JP, [0xcb, 0xdc]) == Kanji
    ensures KindOf(EUC_JP, [0xa1, 0xa1]) == WideBlank
  {
  }

  lemma SpacedWord0()
    ensures WordFits(Classifier(EUC_JP), Cons([0xc6, 0xfc], Cons([0xcb, 0xdc], Nil)), Cons([0xa1, 0xa1], Nil))
  {
    SpacedWord0Kinds();
  }

  lemma SpacedWord1Kinds()
    ensures KindOf(EUC_JP, [0xa1, 0xa1]) == WideBlank
    ensures KindOf(EUC_JP, [0xb8, 0xec]) == Kanji
  {
  }

  lemma SpacedWord1()
    ensures WordFits(Classifier(EUC_JP), Cons([0xa1, 0xa1], Nil), Cons([0xb8, 0xec], Nil))
  {
    SpacedWord1Kinds();
  }

  lemma SpacedWord2Kinds()
    ensures KindOf(EUC_JP, [0xb8, 0xec]) == Kanji
  {
  }

  lemma SpacedWord2()
    ensures WordFits(Classifier(EUC_JP), Cons([0xb8, 0xec], Nil), Cons([0x61], Cons([0x20], Nil)))
  {
    SpacedWord2Kinds();
  }

  lemma SpacedWord3()
    ensures WordFits(Classifier(EUC_JP), Cons([0x61], Cons([0x20], Nil)), Cons([0x62], Cons([0x20], Nil)))
  {
  }

  lemma SpacedWord4()
    ensures WordFits(Classifier(EUC_JP), Cons([0x62], Cons([0x20], Nil)), Cons([0x2d], Cons([0x2d], Nil)))
  {
  }

  lemma SpacedWord5()
    ensures WordFits(Classifier(EUC_JP), Cons([0x2d], Cons([0x2d], Nil)), Cons([0x0d], Cons([0x0a], Nil)))
  {
  }

  lemma SpacedWord6()
    ensures WordFits(Classifier(EUC_JP), Cons([0x0d], Cons([0x0a], Nil)), Nil)
  {
  }

  lemma SpacedFit()
    ensures WordsRead(Classifier(EUC_JP), SpacedWords)
  {
    SpacedWord0(); SpacedWord1(); SpacedWord2(); SpacedWord3(); SpacedWord4(); SpacedWord5(); SpacedWord6();
  }

  lemma SpacedBytes()
    ensures GroupBytes(SpacedWords) == SpacedText
  {
  }

  lemma SpacedKinds()
    ensures KindOf(EUC_JP, [0xc6, 0xfc]) == Kanji
    ensures KindOf(EUC_JP, [0xcb, 0xdc]) == Kanji
    ensures KindOf(EUC_JP, [0xa1, 0xa1]) == WideBlank
    ensures KindOf(EUC_JP, [0xb8, 0xec]) == Kanji
  {
  }

  lemma SpacedAnyWordTally()
    ensures WordCount(Classifier(EUC_JP), AnyWord, SpacedWords) == 7
  {
    SpacedKinds();
  }

  /** test_eucjp_count_word */
  lemma CountWordCase()
    ensures CountWordsOf(EUC_JP, AnyWord, SpacedText) == 7
  {
    SpacedRead();
    SpacedFit();
    SpacedBytes();
    SpacedAnyWordTally();
    WordCountOfGroups(EUC_JP, AnyWord, SpacedWords, SpacedText);
  }

  lemma SpacedJaWordTally()
    ensures WordCount(Classifier(EUC_JP), JaWord, SpacedWords) == 3
  {
    SpacedKinds();
  }

  /** test_eucjp_count_ja_word */
  lemma CountJaWordCase()
    ensures CountWordsOf(EUC_JP, JaWord, SpacedText) == 3
  {
    SpacedRead();
    SpacedFit();
    SpacedBytes();
    SpacedJaWordTally();
    WordCountOfGroups(EUC_JP, JaWord, SpacedWords, SpacedText);
  }

  lemma SpacedLatinValidWordTally()
    ensures WordCount(Classifier(EUC_JP), LatinValidWord, SpacedWords) == 2
  {
    SpacedKinds();
  }

  /** test_eucjp_count_latin_valid_word */
  lemma CountLatinValidWordCase()
    ensures CountWordsOf(EUC_JP, LatinValidWord, SpacedText) == 2
  {
    SpacedRead();
    SpacedFit();
    SpacedBytes();
    SpacedLatinValidWordTally();
    WordCountOfGroups(EUC_JP, LatinValidWord, SpacedWords, SpacedText);
  }

  lemma SpacedJaValidWordTally()
    ensures WordCount(Classifier(EUC_JP), JaValidWord, SpacedWords) == 2
  {
    SpacedKinds();
  }

  /** test_eucjp_count_ja_valid_word */
  lemma CountJaValidWordCase()
    ensures CountWordsOf(EUC_JP, JaValidWord, SpacedText) == 2
  {
    SpacedRead();
    SpacedFit();
    SpacedBytes();
    SpacedJaValidWordTally();
    WordCountOfGroups(EUC_JP, JaValidWord, SpacedWords, SpacedText);
  }

  /** test_eucjp_count_valid_word */
  lemma CountValidWordCase()
    ensures CountWordsOf(EUC_JP, ValidWord, SpacedText) == 4
  {
    CountLatinValidWordCase();
    CountJaValidWordCase();
    WordCounts(EUC_JP, SpacedText);
  }

  /** "日本語\r\n　\r\n \r\n\r\nfoo\r\nbar" read with CRLF terminators, line by line. */
  const MixedText: Bytes := [0xc6, 0xfc, 0xcb, 0xdc, 0xb8, 0xec, 0x0d, 0x0a, 0xa1, 0xa1, 0x0d, 0x0a, 0x20, 0x0d, 0x0a, 0x0d, 0x0a, 0x66, 0x6f, 0x6f, 0x0d, 0x0a, 0x62, 0x61, 0x72]
  const MixedRows: Rows := RCons(Cons([0xc6, 0xfc], Cons([0xcb, 0xdc], Cons([0xb8, 0xec], Nil))), [0x0d, 0x0a], RCons(Cons([0xa1, 0xa1], Nil), [0x0d, 0x0a], RCons(Cons([0x20], Nil), [0x0d, 0x0a], RCons(Nil, [0x0d, 0x0a], RCons(Cons([0x66], Cons([0x6f], Cons([0x6f], Nil))), [0x0d, 0x0a], RCons(Cons([0x62], Cons([0x61], Cons([0x72], Nil))), [], RNil))))))

  lemma MixedRead()
    ensures RowsRead(EUC_JP, CRLF, MixedRows)
  {
  }

  lemma MixedBytes()
    ensures RowBytes(MixedRows) == MixedText
  {
  }

  lemma MixedLine0()
    ensures RowKind(EUC_JP, Cons([0xc6, 0xfc], Cons([0xcb, 0xdc], Cons([0xb8, 0xec], Nil)))) == GraphLine
  {
  }

  lemma MixedLine1()
    ensures RowKind(EUC_JP, Cons([0xa1, 0xa1], Nil)) == BlankLine
  {
  }

  lemma MixedLine2()
    ensures RowKind(EUC_JP, Cons([0x20], Nil)) == BlankLine
  {
  }

  lemma MixedLine3()
    ensures RowKind(EUC_JP, Nil) == EmptyLine
  {
  }

  lemma MixedLine4()
    ensures RowKind(EUC_JP, Cons([0x66], Cons([0x6f], Cons([0x6f], Nil)))) == GraphLine
  {
  }

  lemma MixedLine5()
    ensures RowKind(EUC_JP, Cons([0x62], Cons([0x61], Cons([0x72], Nil)))) == GraphLine
  {
  }

  /** test_eucjp_count_line */
  lemma CountLineCase()
    ensures CountLine(CRLF, MixedText) == 6
  {
    MixedRead(); MixedBytes();
    LineCountsOfRows(EUC_JP, CRLF, EmptyLine, MixedRows, MixedText);
  }

  lemma MixedGraphLineTally()
    ensures RowCount(EUC_JP, GraphLine, MixedRows) == 3
  {
    MixedLine0(); MixedLine1(); MixedLine2(); MixedLine3(); MixedLine4(); MixedLine5();
  }

  /** test_eucjp_count_graph_line */
  lemma CountGraphLineCase()
    ensures CountLinesOf(EUC_JP, CRLF, GraphLine, MixedText) == 3
  {
    MixedRead(); MixedBytes(); MixedGraphLineTally();
    LineCountsOfRows(EUC_JP, CRLF, GraphLine, MixedRows, MixedText);
  }

  lemma MixedEmptyLineTally()
    ensures RowCount(EUC_JP, EmptyLine, MixedRows) == 1
  {
    MixedLine0(); MixedLine1(); MixedLine2(); MixedLine3(); MixedLine4(); MixedLine5();
  }

  /** test_eucjp_count_empty_line */
  lemma CountEmptyLineCase()
    ensures CountLinesOf(EUC_JP, CRLF, EmptyLine, MixedText) == 1
  {
    MixedRead(); MixedBytes(); MixedEmptyLineTally();
    LineCountsOfRows(EUC_JP, CRLF, EmptyLine, MixedRows, MixedText);
  }

  lemma MixedBlankLineTally()
    ensures RowCount(EUC_JP, BlankLine, MixedRows) == 2
  {
    MixedLine0(); MixedLine1(); MixedLine2(); MixedLine3(); MixedLine4(); MixedLine5();
  }

  /** test_eucjp_count_blank_line */
  lemma CountBlankLineCase()
    ensures CountLinesOf(EUC_JP, CRLF, BlankLine, MixedText) == 2
  {
    MixedRead(); MixedBytes(); MixedBlankLineTally();
    LineCountsOfRows(EUC_JP, CRLF, BlankLine, MixedRows, MixedText);
  }
}
