/** The UTF-8 cases of the test suite. */
module Utf8Examples {
  import opened ByteStrings
  import opened Tags
  import opened EncodingTable
  import opened Chars
  import opened Lines
  import opened Words
  import opened Counters
  import opened Literals

  /** "日本語の文字foo bar". */
  const MixedWordsText: Bytes := [0xe6, 0x97, 0xa5, 0xe6, 0x9c, 0xac, 0xe8, 0xaa, 0x9e, 0xe3, 0x81, 0xae, 0xe6, 0x96, 0x87, 0xe5, 0xad, 0x97, 0x66, 0x6f, 0x6f, 0x20, 0x62, 0x61, 0x72]
  const MixedWordsWords: Groups := GCons(Cons([0xe6, 0x97, 0xa5], Cons([0xe6, 0x9c, 0xac], Cons([0xe8, 0xaa, 0x9e], Cons([0xe3, 0x81, 0xae], Nil)))), GCons(Cons([0xe6, 0x96, 0x87], Cons([0xe5, 0xad, 0x97], Nil)), GCons(Cons([0x66], Cons([0x6f], Cons([0x6f], Cons([0x20], Nil)))), GCons(Cons([0x62], Cons([0x61], Cons([0x72], Nil))), GNil))))

  lemma MixedWordsRead()
    ensures CharsRead(UTF8, NONE, MixedWordsWords)
  {
  }

  lemma MixedWordsWord0Kinds()
    ensures KindOf(UTF8, [0xe6, 0x97, 0xa5]) == Kanji
    ensures KindOf(UTF8, [0xe6, 0x9c, 0xac]) == Kanji
    ensures KindOf(UTF8, [0xe8, 0xaa, 0x9e]) == Kanji
    ensures KindOf(UTF8, [0xe3, 0x81, 0xae]) == Hiragana
    ensures KindOf(UTF8, [0xe6, 0x96, 0x87]) == Kanji
  {
  }

  lemma MixedWordsWord0()
    ensures WordFits(Classifier(UTF8), Cons([0xe6, 0x97, 0xa5], Cons([0xe6, 0x9c, 0xac], Cons([0xe8, 0xaa, 0x9e], Cons([0xe3, 0x81, 0xae], Nil)))), Cons([0xe6, 0x96, 0x87], Cons([0xe5, 0xad, 0x97], Nil)))
  {
    MixedWordsWord0Kinds();
  }

  lemma MixedWordsWord1Kinds()
    ensures KindOf(UTF8, [0xe6, 0x96, 0x87]) == Kanji
    ensures KindOf(UTF8, [0xe5, 0xad, 0x97]) == Kanji
  {
  }

  lemma MixedWordsWord1()
    ensures WordFits(Classifier(UTF8), Cons([0xe6, 0x96, 0x87], Cons([0xe5, 0xad, 0x97], Nil)), Cons([0x66], Cons([0x6f], Cons([0x6f], Cons([0x20], Nil)))))
  {
    MixedWordsWord1Kinds();
  }

  lemma MixedWordsWord2()
    ensures WordFits(Classifier(UTF8), Cons([0x66], Cons([0x6f], Cons([0x6f], Cons([0x20], Nil)))), Cons([0x62], Cons([0x61], Cons([0x72], Nil))))
  {
  }

  lemma MixedWordsWord3()
    ensures WordFits(Classifier(UTF8), Cons([0x62], Cons([0x61], Cons([0x72], Nil))), Nil)
  {
  }

  lemma MixedWordsFit()
    ensures WordsRead(Classifier(UTF8), MixedWordsWords)
  {
    MixedWordsWord0(); MixedWordsWord1(); MixedWordsWord2(); MixedWordsWord3();
  }

  lemma MixedWordsBytes()
    ensures GroupBytes(MixedWordsWords) == MixedWordsText
  {
  }

  /** test_utf8_to_word */
  lemma ToWordCase()
    ensures ToWord(UTF8, MixedWordsText) == [[0xe6, 0x97, 0xa5, 0xe6, 0x9c, 0xac, 0xe8, 0xaa, 0x9e, 0xe3, 0x81, 0xae], [0xe6, 0x96, 0x87, 0xe5, 0xad, 0x97], [0x66, 0x6f, 0x6f, 0x20], [0x62, 0x61, 0x72]]
  {
    assert GroupFlats(MixedWordsWords) == [[0xe6, 0x97, 0xa5, 0xe6, 0x9c, 0xac, 0xe8, 0xaa, 0x9e, 0xe3, 0x81, 0xae], [0xe6, 0x96, 0x87, 0xe5, 0xad, 0x97], [0x66, 0x6f, 0x6f, 0x20], [0x62, 0x61, 0x72]] by {
      assert Join(Cons([0xe6, 0x97, 0xa5], Cons([0xe6, 0x9c, 0xac], Cons([0xe8, 0xaa, 0x9e], Cons([0xe3, 0x81, 0xae], Nil))))) == [0xe6, 0x97, 0xa5, 0xe6, 0x9c, 0xac, 0xe8, 0xaa, 0x9e, 0xe3, 0x81, 0xae];
      assert Join(Cons([0xe6, 0x96, 0x87], Cons([0xe5, 0xad, 0x97], Nil))) == [0xe6, 0x96, 0x87, 0xe5, 0xad, 0x97];
      assert Join(Cons([0x66], Cons([0x6f], Cons([0x6f], Cons([0x20], Nil))))) == [0x66, 0x6f, 0x6f, 0x20];
      assert Join(Cons([0x62], Cons([0x61], Cons([0x72], Nil)))) == [0x62, 0x61, 0x72];
    }
    MixedWordsRead();
    MixedWordsFit();
    MixedWordsBytes();
    ReadWordText(UTF8, MixedWordsWords);
  }

  /** "日本語の文字". */
  const KanHiraWordsText: Bytes := [0xe6, 0x97, 0xa5, 0xe6, 0x9c, 0xac, 0xe8, 0xaa, 0x9e, 0xe3, 0x81, 0xae, 0xe6, 0x96, 0x87, 0xe5, 0xad, 0x97]
  const KanHiraWordsWords: Groups := GCons(Cons([0xe6, 0x97, 0xa5], Cons([0xe6, 0x9c, 0xac], Cons([0xe8, 0xaa, 0x9e], Cons([0xe3, 0x81, 0xae], Nil)))), GCons(Cons([0xe6, 0x96, 0x87], Cons([0xe5, 0xad, 0x97], Nil)), GNil))

  lemma KanHiraWordsRead()
    ensures CharsRead(UTF8, NONE, KanHiraWordsWords)
  {
  }

  lemma KanHiraWordsWord0Kinds()
    ensures KindOf(UTF8, [0xe6, 0x97, 0xa5]) == Kanji
    ensures KindOf(UTF8, [0xe6, 0x9c, 0xac]) == Kanji
    ensures KindOf(UTF8, [0xe8, 0xaa, 0x9e]) == Kanji
    ensures KindOf(UTF8, [0xe3, 0x81, 0xae]) == Hiragana
    ensures KindOf(UTF8, [0xe6, 0x96, 0x87]) == Kanji
  {
  }

  lemma KanHiraWordsWord0()
    ensures WordFits(Classifier(UTF8), Cons([0xe6, 0x97, 0xa5], Cons([0xe6, 0x9c, 0xac], Cons([0xe8, 0xaa, 0x9e], Cons([0xe3, 0x81, 0xae], Nil)))), Cons([0xe6, 0x96, 0x87], Cons([0xe5, 0xad, 0x97], Nil)))
  {
    KanHiraWordsWord0Kinds();
  }

  lemma KanHiraWordsWord1Kinds()
    ensures KindOf(UTF8, [0xe6, 0x96, 0x87]) == Kanji
    ensures KindOf(UTF8, [0xe5, 0xad, 0x97]) == Kanji
  {
  }

  lemma KanHiraWordsWord1()
    ensures WordFits(Classifier(UTF8), Cons([0xe6, 0x96, 0x87], Cons([0xe5, 0xad, 0x97], Nil)), Nil)
  {
    KanHiraWordsWord1Kinds();
  }

  lemma KanHiraWordsFit()
    ensures WordsRead(Classifier(UTF8), KanHiraWordsWords)
  {
    KanHiraWordsWord0(); KanHiraWordsWord1();
  }

  lemma KanHiraWordsBytes()
    ensures GroupBytes(KanHiraWordsWords) == KanHiraWordsText
  {
  }

  /** test_utf8_to_word_kanhira */
  lemma ToWordKanhiraCase()
    ensures ToWord(UTF8, KanHiraWordsText) == [[0xe6, 0x97, 0xa5, 0xe6, 0x9c, 0xac, 0xe8, 0xaa, 0x9e, 0xe3, 0x81, 0xae], [0xe6, 0x96, 0x87, 0xe5, 0xad, 0x97]]
  {
    assert GroupFlats(KanHiraWordsWords) == [[0xe6, 0x97, 0xa5, 0xe6, 0x9c, 0xac, 0xe8, 0xaa, 0x9e, 0xe3, 0x81, 0xae], [0xe6, 0x96, 0x87, 0xe5, 0xad, 0x97]] by {
      assert Join(Cons([0xe6, 0x97, 0xa5], Cons([0xe6, 0x9c, 0xac], Cons([0xe8, 0xaa, 0x9e], Cons([0xe3, 0x81, 0xae], Nil))))) == [0xe6, 0x97, 0xa5, 0xe6, 0x9c, 0xac, 0xe8, 0xaa, 0x9e, 0xe3, 0x81, 0xae];
      assert Join(Cons([0xe6, 0x96, 0x87], Cons([0xe5, 0xad, 0x97], Nil))) == [0xe6, 0x96, 0x87, 0xe5, 0xad, 0x97];
    }
    KanHiraWordsRead();
    KanHiraWordsFit();
    KanHiraWordsBytes();
    ReadWordText(UTF8, KanHiraWordsWords);
  }

  /** "カタカナの文字". */
  const KataHiraWordsText: Bytes := [0xe3, 0x82, 0xab, 0xe3, 0x82, 0xbf, 0xe3, 0x82, 0xab, 0xe3, 0x83, 0x8a, 0xe3, 0x81, 0xae, 0xe6, 0x96, 0x87, 0xe5, 0xad, 0x97]
  const KataHiraWordsWords: Groups := GCons(Cons([0xe3, 0x82, 0xab], Cons([0xe3, 0x82, 0xbf], Cons([0xe3, 0x82, 0xab], Cons([0xe3, 0x83, 0x8a], Cons([0xe3, 0x81, 0xae], Nil))))), GCons(Cons([0xe6, 0x96, 0x87], Cons([0xe5, 0xad, 0x97], Nil)), GNil))

  lemma KataHiraWordsRead()
    ensures CharsRead(UTF8, NONE, KataHiraWordsWords)
  {
  }

  lemma KataHiraWordsWord0Kinds()
    ensures KindOf(UTF8, [0xe3, 0x82, 0xab]) == Katakana
    ensures KindOf(UTF8, [0xe3, 0x82, 0xbf]) == Katakana
    ensures KindOf(UTF8, [0xe3, 0x83, 0x8a]) == Katakana
    ensures KindOf(UTF8, [0xe3, 0x81, 0xae]) == Hiragana
    ensures KindOf(UTF8, [0xe6, 0x96, 0x87]) == Kanji
  {
  }

  lemma KataHiraWordsWord0()
    ensures WordFits(Classifier(UTF8), Cons([0xe3, 0x82, 0xab], Cons([0xe3, 0x82, 0xbf], Cons([0xe3, 0x82, 0xab], Cons([0xe3, 0x83, 0x8a], Cons([0xe3, 0x81, 0xae], Nil))))), Cons([0xe6, 0x96, 0x87], Cons([0xe5, 0xad, 0x97], Nil)))
  {
    KataHiraWordsWord0Kinds();
  }

  lemma KataHiraWordsWord1Kinds()
    ensures KindOf(UTF8, [0xe6, 0x96, 0x87]) == Kanji
    ensures KindOf(UTF8, [0xe5, 0xad, 0x97]) == Kanji
  {
  }

  lemma KataHiraWordsWord1()
    ensures WordFits(Classifier(UTF8), Cons([0xe6, 0x96, 0x87], Cons([0xe5, 0xad, 0x97], Nil)), Nil)
  {
    KataHiraWordsWord1Kinds();
  }

  lemma KataHiraWordsFit()
    ensures WordsRead(Classifier(UTF8), KataHiraWordsWords)
  {
    KataHiraWordsWord0(); KataHiraWordsWord1();
  }

  lemma KataHiraWordsBytes()
    ensures GroupBytes(KataHiraWordsWords) == KataHiraWordsText
  {
  }

  /** test_utf8_to_word_katahira */
  lemma ToWordKatahiraCase()
    ensures ToWord(UTF8, KataHiraWordsText) == [[0xe3, 0x82, 0xab, 0xe3, 0x82, 0xbf, 0xe3, 0x82, 0xab, 0xe3, 0x83, 0x8a, 0xe3, 0x81, 0xae], [0xe6, 0x96, 0x87, 0xe5, 0xad, 0x97]]
  {
    assert GroupFlats(KataHiraWordsWords) == [[0xe3, 0x82, 0xab, 0xe3, 0x82, 0xbf, 0xe3, 0x82, 0xab, 0xe3, 0x83, 0x8a, 0xe3, 0x81, 0xae], [0xe6, 0x96, 0x87, 0xe5, 0xad, 0x97]] by {
      assert Join(Cons([0xe3, 0x82, 0xab], Cons([0xe3, 0x82, 0xbf], Cons([0xe3, 0x82, 0xab], Cons([0xe3, 0x83, 0x8a], Cons([0xe3, 0x81, 0xae], Nil)))))) == [0xe3, 0x82, 0xab, 0xe3, 0x82, 0xbf, 0xe3, 0x82, 0xab, 0xe3, 0x83, 0x8a, 0xe3, 0x81, 0xae];
      assert Join(Cons([0xe6, 0x96, 0x87], Cons([0xe5, 0xad, 0x97], Nil))) == [0xe6, 0x96, 0x87, 0xe5, 0xad, 0x97];
    }
    KataHiraWordsRead();
    KataHiraWordsFit();
    KataHiraWordsBytes();
    ReadWordText(UTF8, KataHiraWordsWords);
  }

  /** "ルビーの指輪". */
  const KataOnbikiWordsText: Bytes := [0xe3, 0x83, 0xab, 0xe3, 0x83, 0x93, 0xe3, 0x83, 0xbc, 0xe3, 0x81, 0xae, 0xe6, 0x8c, 0x87, 0xe8, 0xbc, 0xaa]
  const KataOnbikiWordsWords: Groups := GCons(Cons([0xe3, 0x83, 0xab], Cons([0xe3, 0x83, 0x93], Cons([0xe3, 0x83, 0xbc], Cons([0xe3, 0x81, 0xae], Nil)))), GCons(Cons([0xe6, 0x8c, 0x87], Cons([0xe8, 0xbc, 0xaa], Nil)), GNil))

  lemma KataOnbikiWordsRead()
    ensures CharsRead(UTF8, NONE, KataOnbikiWordsWords)
  {
  }

  lemma KataOnbikiWordsWord0Kinds()
    ensures KindOf(UTF8, [0xe3, 0x83, 0xab]) == Katakana
    ensures KindOf(UTF8, [0xe3, 0x83, 0x93]) == Katakana
    ensures KindOf(UTF8, [0xe3, 0x83, 0xbc]) == Prolonged
    ensures KindOf(UTF8, [0xe3, 0x81, 0xae]) == Hiragana
    ensures KindOf(UTF8, [0xe6, 0x8c, 0x87]) == Kanji
  {
  }

  lemma KataOnbikiWordsWord0()
    ensures WordFits(Classifier(UTF8), Cons([0xe3, 0x83, 0xab], Cons([0xe3, 0x83, 0x93], Cons([0xe3, 0x83, 0xbc], Cons([0xe3, 0x81, 0xae], Nil)))), Cons([0xe6, 0x8c, 0x87], Cons([0xe8, 0xbc, 0xaa], Nil)))
  {
    KataOnbikiWordsWord0Kinds();
  }

  lemma KataOnbikiWordsWord1Kinds()
    ensures KindOf(UTF8, [0xe6, 0x8c, 0x87]) == Kanji
    ensures KindOf(UTF8, [0xe8, 0xbc, 0xaa]) == Kanji
  {
  }

  lemma KataOnbikiWordsWord1()
    ensures WordFits(Classifier(UTF8), Cons([0xe6, 0x8c, 0x87], Cons([0xe8, 0xbc, 0xaa], Nil)), Nil)
  {
    KataOnbikiWordsWord1Kinds();
  }

  lemma KataOnbikiWordsFit()
    ensures WordsRead(Classifier(UTF8), KataOnbikiWordsWords)
  {
    KataOnbikiWordsWord0(); KataOnbikiWordsWord1();
  }

  lemma KataOnbikiWordsBytes()
    ensures GroupBytes(KataOnbikiWordsWords) == KataOnbikiWordsText
  {
  }

  /** test_utf8_to_word_kataonbiki */
  lemma ToWordKataonbikiCase()
    ensures ToWord(UTF8, KataOnbikiWordsText) == [[0xe3, 0x83, 0xab, 0xe3, 0x83, 0x93, 0xe3, 0x83, 0xbc, 0xe3, 0x81, 0xae], [0xe6, 0x8c, 0x87, 0xe8, 0xbc, 0xaa]]
  {
    assert GroupFlats(KataOnbikiWordsWords) == [[0xe3, 0x83, 0xab, 0xe3, 0x83, 0x93, 0xe3, 0x83, 0xbc, 0xe3, 0x81, 0xae], [0xe6, 0x8c, 0x87, 0xe8, 0xbc, 0xaa]] by {
      assert Join(Cons([0xe3, 0x83, 0xab], Cons([0xe3, 0x83, 0x93], Cons([0xe3, 0x83, 0xbc], Cons([0xe3, 0x81, 0xae], Nil))))) == [0xe3, 0x83, 0xab, 0xe3, 0x83, 0x93, 0xe3, 0x83, 0xbc, 0xe3, 0x81, 0xae];
      assert Join(Cons([0xe6, 0x8c, 0x87], Cons([0xe8, 0xbc, 0xaa], Nil))) == [0xe6, 0x8c, 0x87, 0xe8, 0xbc, 0xaa];
    }
    KataOnbikiWordsRead();
    KataOnbikiWordsFit();
    KataOnbikiWordsBytes();
    ReadWordText(UTF8, KataOnbikiWordsWords);
  }

  /** "わールビーだ". */
  const HiraOnbikiWordsText: Bytes := [0xe3, 0x82, 0x8f, 0xe3, 0x83, 0xbc, 0xe3, 0x83, 0xab, 0xe3, 0x83, 0x93, 0xe3, 0x83, 0xbc, 0xe3, 0x81, 0xa0]
  const HiraOnbikiWordsWords: Groups := GCons(Cons([0xe3, 0x82, 0x8f], Cons([0xe3, 0x83, 0xbc], Nil)), GCons(Cons([0xe3, 0x83, 0xab], Cons([0xe3, 0x83, 0x93], Cons([0xe3, 0x83, 0xbc], Cons([0xe3, 0x81, 0xa0], Nil)))), GNil))

  lemma HiraOnbikiWordsRead()
    ensures CharsRead(UTF8, NONE, HiraOnbikiWordsWords)
  {
  }

  lemma HiraOnbikiWordsWord0Kinds()
    ensures KindOf(UTF8, [0xe3, 0x82, 0x8f]) == Hiragana
    ensures KindOf(UTF8, [0xe3, 0x83, 0xbc]) == Prolonged
    ensures KindOf(UTF8, [0xe3, 0x83, 0xab]) == Katakana
  {
  }

  lemma HiraOnbikiWordsWord0()
    ensures WordFits(Classifier(UTF8), Cons([0xe3, 0x82, 0x8f], Cons([0xe3, 0x83, 0xbc], Nil)), Cons([0xe3, 0x83, 0xab], Cons([0xe3, 0x83, 0x93], Cons([0xe3, 0x83, 0xbc], Cons([0xe3, 0x81, 0xa0], Nil)))))
  {
    HiraOnbikiWordsWord0Kinds();
  }

  lemma HiraOnbikiWordsWord1Kinds()
    ensures KindOf(UTF8, [0xe3, 0x83, 0xab]) == Katakana
    ensures KindOf(UTF8, [0xe3, 0x83, 0x93]) == Katakana
    ensures KindOf(UTF8, [0xe3, 0x83, 0xbc]) == Prolonged
    ensures KindOf(UTF8, [0xe3, 0x81, 0xa0]) == Hiragana
  {
  }

  lemma HiraOnbikiWordsWord1()
    ensures WordFits(Classifier(UTF8), Cons([0xe3, 0x83, 0xab], Cons([0xe3, 0x83, 0x93], Cons([0xe3, 0x83, 0xbc], Cons([0xe3, 0x81, 0xa0], Nil)))), Nil)
  {
    HiraOnbikiWordsWord1Kinds();
  }

  lemma HiraOnbikiWordsFit()
    ensures WordsRead(Classifier(UTF8), HiraOnbikiWordsWords)
  {
    HiraOnbikiWordsWord0(); HiraOnbikiWordsWord1();
  }

  lemma HiraOnbikiWordsBytes()
    ensures GroupBytes(HiraOnbikiWordsWords) == HiraOnbikiWordsText
  {
  }

  /** test_utf8_to_word_hiraonbiki */
  lemma ToWordHiraonbikiCase()
    ensures ToWord(UTF8, HiraOnbikiWordsText) == [[0xe3, 0x82, 0x8f, 0xe3, 0x83, 0xbc], [0xe3, 0x83, 0xab, 0xe3, 0x83, 0x93, 0xe3, 0x83, 0xbc, 0xe3, 0x81, 0xa0]]
  {
    assert GroupFlats(HiraOnbikiWordsWords) == [[0xe3, 0x82, 0x8f, 0xe3, 0x83, 0xbc], [0xe3, 0x83, 0xab, 0xe3, 0x83, 0x93, 0xe3, 0x83, 0xbc, 0xe3, 0x81, 0xa0]] by {
      assert Join(Cons([0xe3, 0x82, 0x8f], Cons([0xe3, 0x83, 0xbc], Nil))) == [0xe3, 0x82, 0x8f, 0xe3, 0x83, 0xbc];
      assert Join(Cons([0xe3, 0x83, 0xab], Cons([0xe3, 0x83, 0x93], Cons([0xe3, 0x83, 0xbc], Cons([0xe3, 0x81, 0xa0], Nil))))) == [0xe3, 0x83, 0xab, 0xe3, 0x83, 0x93, 0xe3, 0x83, 0xbc, 0xe3, 0x81, 0xa0];
    }
    HiraOnbikiWordsRead();
    HiraOnbikiWordsFit();
    HiraOnbikiWordsBytes();
    ReadWordText(UTF8, HiraOnbikiWordsWords);
  }

  /** "日本語とLatinの文字". */
  const LatinMixWordsText: Bytes := [0xe6, 0x97, 0xa5, 0xe6, 0x9c, 0xac, 0xe8, 0xaa, 0x9e, 0xe3, 0x81, 0xa8, 0x4c, 0x61, 0x74, 0x69, 0x6e, 0xe3, 0x81, 0xae, 0xe6, 0x96, 0x87, 0xe5, 0xad, 0x97]
  const LatinMixWordsWords: Groups := GCons(Cons([0xe6, 0x97, 0xa5], Cons([0xe6, 0x9c, 0xac], Cons([0xe8, 0xaa, 0x9e], Cons([0xe3, 0x81, 0xa8], Nil)))), GCons(Cons([0x4c], Cons([0x61], Cons([0x74], Cons([0x69], Cons([0x6e], Nil))))), GCons(Cons([0xe3, 0x81, 0xae], Nil), GCons(Cons([0xe6, 0x96, 0x87], Cons([0xe5, 0xad, 0x97], Nil)), GNil))))

  lemma LatinMixWordsRead()
    ensures CharsRead(UTF8, NONE, LatinMixWordsWords)
  {
  }

  lemma LatinMixWordsWord0Kinds()
    ensures KindOf(UTF8, [0xe6, 0x97, 0xa5]) == Kanji
    ensures KindOf(UTF8, [0xe6, 0x9c, 0xac]) == Kanji
    ensures KindOf(UTF8, [0xe8, 0xaa, 0x9e]) == Kanji
    ensures KindOf(UTF8, [0xe3, 0x81, 0xa8]) == Hiragana
  {
  }

  lemma LatinMixWordsWord0()
    ensures WordFits(Classifier(UTF8), Cons([0xe6, 0x97, 0xa5], Cons([0xe6, 0x9c, 0xac], Cons([0xe8, 0xaa, 0x9e], Cons([0xe3, 0x81, 0xa8], Nil)))), Cons([0x4c], Cons([0x61], Cons([0x74], Cons([0x69], Cons([0x6e], Nil))))))
  {
    LatinMixWordsWord0Kinds();
  }

  lemma LatinMixWordsWord1Kinds()
    ensures KindOf(UTF8, [0xe3, 0x81, 0xae]) == Hiragana
  {
  }

  lemma LatinMixWordsWord1()
    ensures WordFits(Classifier(UTF8), Cons([0x4c], Cons([0x61], Cons([0x74], Cons([0x69], Cons([0x6e], Nil))))), Cons([0xe3, 0x81, 0xae], Nil))
  {
    LatinMixWordsWord1Kinds();
  }

  lemma LatinMixWordsWord2Kinds()
    ensures KindOf(UTF8, [0xe3, 0x81, 0xae]) == Hiragana
    ensures KindOf(UTF8, [0xe6, 0x96, 0x87]) == Kanji
  {
  }

  lemma LatinMixWordsWord2()
    ensures WordFits(Classifier(UTF8), Cons([0xe3, 0x81, 0xae], Nil), Cons([0xe6, 0x96, 0x87], Cons([0xe5, 0xad, 0x97], Nil)))
  {
    LatinMixWordsWord2Kinds();
  }

  lemma LatinMixWordsWord3Kinds()
    ensures KindOf(UTF8, [0xe6, 0x96, 0x87]) == Kanji
    ensures KindOf(UTF8, [0xe5, 0xad, 0x97]) == Kanji
  {
  }

  lemma LatinMixWordsWord3()
    ensures WordFits(Classifier(UTF8), Cons([0xe6, 0x96, 0x87], Cons([0xe5, 0xad, 0x97], Nil)), Nil)
  {
    LatinMixWordsWord3Kinds();
  }

  lemma LatinMixWordsFit()
    ensures WordsRead(Classifier(UTF8), LatinMixWordsWords)
  {
    LatinMixWordsWord0(); LatinMixWordsWord1(); LatinMixWordsWord2(); LatinMixWordsWord3();
  }

  lemma LatinMixWordsBytes()
    ensures GroupBytes(LatinMixWordsWords) == LatinMixWordsText
  {
  }

  /** test_utf8_to_word_latinmix */
  lemma ToWordLatinmixCase()
    ensures ToWord(UTF8, LatinMixWordsText) == [[0xe6, 0x97, 0xa5, 0xe6, 0x9c, 0xac, 0xe8, 0xaa, 0x9e, 0xe3, 0x81, 0xa8], [0x4c, 0x61, 0x74, 0x69, 0x6e], [0xe3, 0x81, 0xae], [0xe6, 0x96, 0x87, 0xe5, 0xad, 0x97]]
  {
    assert GroupFlats(LatinMixWordsWords) == [[0xe6, 0x97, 0xa5, 0xe6, 0x9c, 0xac, 0xe8, 0xaa, 0x9e, 0xe3, 0x81, 0xa8], [0x4c, 0x61, 0x74, 0x69, 0x6e], [0xe3, 0x81, 0xae], [0xe6, 0x96, 0x87, 0xe5, 0xad, 0x97]] by {
      assert Join(Cons([0xe6, 0x97, 0xa5], Cons([0xe6, 0x9c, 0xac], Cons([0xe8, 0xaa, 0x9e], Cons([0xe3, 0x81, 0xa8], Nil))))) == [0xe6, 0x97, 0xa5, 0xe6, 0x9c, 0xac, 0xe8, 0xaa, 0x9e, 0xe3, 0x81, 0xa8];
      assert Join(Cons([0x4c], Cons([0x61], Cons([0x74], Cons([0x69], Cons([0x6e], Nil)))))) == [0x4c, 0x61, 0x74, 0x69, 0x6e];
      assert Join(Cons([0xe3, 0x81, 0xae], Nil)) == [0xe3, 0x81, 0xae];
      assert Join(Cons([0xe6, 0x96, 0x87], Cons([0xe5, 0xad, 0x97], Nil))) == [0xe6, 0x96, 0x87, 0xe5, 0xad, 0x97];
    }
    LatinMixWordsRead();
    LatinMixWordsFit();
    LatinMixWordsBytes();
    ReadWordText(UTF8, LatinMixWordsWords);
  }

  /** "日本語a b" read with LF terminators. */
  const PlainCharsText: Bytes := [0xe6, 0x97, 0xa5, 0xe6, 0x9c, 0xac, 0xe8, 0xaa, 0x9e, 0x61, 0x20, 0x62]
  const PlainCharsChars: Groups := GCons(Cons([0xe6, 0x97, 0xa5], Cons([0xe6, 0x9c, 0xac], Cons([0xe8, 0xaa, 0x9e], Cons([0x61], Nil)))), GCons(Cons([0x20], Cons([0x62], Nil)), GNil))

  lemma PlainCharsRead()
    ensures CharsRead(UTF8, LF, PlainCharsChars)
  {
  }

  lemma PlainCharsBytes()
    ensures GroupBytes(PlainCharsChars) == PlainCharsText
  {
  }

  lemma PlainCharsTokens()
    ensures GroupTokens(PlainCharsChars) == [[0xe6, 0x97, 0xa5], [0xe6, 0x9c, 0xac], [0xe8, 0xaa, 0x9e], [0x61], [0x20], [0x62]]
  {
  }

  /** test_utf8_to_char */
  lemma ToCharCase()
    ensures ToChar(UTF8, LF, PlainCharsText) == [[0xe6, 0x97, 0xa5], [0xe6, 0x9c, 0xac], [0xe8, 0xaa, 0x9e], [0x61], [0x20], [0x62]]
  {
    PlainCharsRead();
    PlainCharsBytes();
    PlainCharsTokens();
    ReadChars(UTF8, LF, PlainCharsChars);
  }

  /** "日本語a b\r" read with CR terminators. */
  const CrCharsText: Bytes := [0xe6, 0x97, 0xa5, 0xe6, 0x9c, 0xac, 0xe8, 0xaa, 0x9e, 0x61, 0x20, 0x62, 0x0d]
  const CrCharsChars: Groups := GCons(Cons([0xe6, 0x97, 0xa5], Cons([0xe6, 0x9c, 0xac], Cons([0xe8, 0xaa, 0x9e], Cons([0x61], Nil)))), GCons(Cons([0x20], Cons([0x62], Cons([0x0d], Nil))), GNil))

  lemma CrCharsRead()
    ensures CharsRead(UTF8, CR, CrCharsChars)
  {
  }

  lemma CrCharsBytes()
    ensures GroupBytes(CrCharsChars) == CrCharsText
  {
  }

  lemma CrCharsTokens()
    ensures GroupTokens(CrCharsChars) == [[0xe6, 0x97, 0xa5], [0xe6, 0x9c, 0xac], [0xe8, 0xaa, 0x9e], [0x61], [0x20], [0x62], [0x0d]]
  {
  }

  /** test_utf8_to_char_with_cr */
  lemma ToCharWithCrCase()
    ensures ToChar(UTF8, CR, CrCharsText) == [[0xe6, 0x97, 0xa5], [0xe6, 0x9c, 0xac], [0xe8, 0xaa, 0x9e], [0x61], [0x20], [0x62], [0x0d]]
  {
    CrCharsRead();
    CrCharsBytes();
    CrCharsTokens();
    ReadChars(UTF8, CR, CrCharsChars);
  }

  /** "日本語a b\n" read with LF terminators. */
  const LfCharsText: Bytes := [0xe6, 0x97, 0xa5, 0xe6, 0x9c, 0xac, 0xe8, 0xaa, 0x9e, 0x61, 0x20, 0x62, 0x0a]
  const LfCharsChars: Groups := GCons(Cons([0xe6, 0x97, 0xa5], Cons([0xe6, 0x9c, 0xac], Cons([0xe8, 0xaa, 0x9e], Cons([0x61], Nil)))), GCons(Cons([0x20], Cons([0x62], Cons([0x0a], Nil))), GNil))

  lemma LfCharsRead()
    ensures CharsRead(UTF8, LF, LfCharsChars)
  {
  }

  lemma LfCharsBytes()
    ensures GroupBytes(LfCharsChars) == LfCharsText
  {
  }

  lemma LfCharsTokens()
    ensures GroupTokens(LfCharsChars) == [[0xe6, 0x97, 0xa5], [0xe6, 0x9c, 0xac], [0xe8, 0xaa, 0x9e], [0x61], [0x20], [0x62], [0x0a]]
  {
  }

  /** test_utf8_to_char_with_lf */
  lemma ToCharWithLfCase()
    ensures ToChar(UTF8, LF, LfCharsText) == [[0xe6, 0x97, 0xa5], [0xe6, 0x9c, 0xac], [0xe8, 0xaa, 0x9e], [0x61], [0x20], [0x62], [0x0a]]
  {
    LfCharsRead();
    LfCharsBytes();
    LfCharsTokens();
    ReadChars(UTF8, LF, LfCharsChars);
  }

  /** "日本語a b\r\n" read with CRLF terminators. */
  const CrlfCharsText: Bytes := [0xe6, 0x97, 0xa5, 0xe6, 0x9c, 0xac, 0xe8, 0xaa, 0x9e, 0x61, 0x20, 0x62, 0x0d, 0x0a]
  const CrlfCharsChars: Groups := GCons(Cons([0xe6, 0x97, 0xa5], Cons([0xe6, 0x9c, 0xac], Cons([0xe8, 0xaa, 0x9e], Cons([0x61], Nil)))), GCons(Cons([0x20], Cons([0x62], Cons([0x0d, 0x0a], Nil))), GNil))

  lemma CrlfCharsRead()
    ensures CharsRead(UTF8, CRLF, CrlfCharsChars)
  {
  }

  lemma CrlfCharsBytes()
    ensures GroupBytes(CrlfCharsChars) == CrlfCharsText
  {
  }

  lemma CrlfCharsTokens()
    ensures GroupTokens(CrlfCharsChars) == [[0xe6, 0x97, 0xa5], [0xe6, 0x9c, 0xac], [0xe8, 0xaa, 0x9e], [0x61], [0x20], [0x62], [0x0d, 0x0a]]
  {
  }

  /** test_utf8_to_char_with_crlf */
  lemma ToCharWithCrlfCase()
    ensures ToChar(UTF8, CRLF, CrlfCharsText) == [[0xe6, 0x97, 0xa5], [0xe6, 0x9c, 0xac], [0xe8, 0xaa, 0x9e], [0x61], [0x20], [0x62], [0x0d, 0x0a]]
  {
    CrlfCharsRead();
    CrlfCharsBytes();
    CrlfCharsTokens();
    ReadChars(UTF8, CRLF, CrlfCharsChars);
  }

  /** "日本語a b\r\n" read with CRLF terminators. */
  const GraphText: Bytes := [0xe6, 0x97, 0xa5, 0xe6, 0x9c, 0xac, 0xe8, 0xaa, 0x9e, 0x61, 0x20, 0x62, 0x0d, 0x0a]
  const GraphChars: Groups := GCons(Cons([0xe6, 0x97, 0xa5], Cons([0xe6, 0x9c, 0xac], Cons([0xe8, 0xaa, 0x9e], Cons([0x61], Nil)))), GCons(Cons([0x20], Cons([0x62], Cons([0x0d, 0x0a], Nil))), GNil))

  lemma GraphRead()
    ensures CharsRead(UTF8, CRLF, GraphChars)
  {
  }

  lemma GraphBytes()
    ensures GroupBytes(GraphChars) == GraphText
  {
  }

  lemma GraphKinds()
    ensures KindOf(UTF8, [0xe6, 0x97, 0xa5]) == Kanji
    ensures KindOf(UTF8, [0xe6, 0x9c, 0xac]) == Kanji
    ensures KindOf(UTF8, [0xe8, 0xaa, 0x9e]) == Kanji
    ensures KindOf(UTF8, [0x0d, 0x0a]) == Break
  {
  }

  lemma GraphLatinGraph()
    ensures ClassCount(Classifier(UTF8), GraphChars, LatinGraph) == 2
  {
    GraphKinds();
  }

  lemma GraphJaGraph()
    ensures ClassCount(Classifier(UTF8), GraphChars, JaGraph) == 3
  {
    GraphKinds();
  }

  lemma GraphLength()
    ensures |GroupTokens(GraphChars)| == 7
  {
  }

  /** test_utf8_count_char */
  lemma CountCharCase()
    ensures CountChar(UTF8, CRLF, GraphText) == 7
  {
    GraphRead();
    GraphBytes();
    GraphLength();
    CharCountOfGroups(UTF8, CRLF, GraphChars, GraphText);
  }

  /** test_utf8_count_latin_graph_char */
  lemma CountLatinGraphCharCase()
    ensures CountLatinGraphChar(UTF8, CRLF, GraphText) == 2
  {
    GraphRead();
    GraphBytes();
    GraphLatinGraph();
    ClassCountOfGroups(UTF8, CRLF, GraphChars, GraphText, LatinGraph);
  }

  /** test_utf8_count_ja_graph_char */
  lemma CountJaGraphCharCase()
    ensures CountJaGraphChar(UTF8, CRLF, GraphText) == 3
  {
    GraphRead();
    GraphBytes();
    GraphJaGraph();
    ClassCountOfGroups(UTF8, CRLF, GraphChars, GraphText, JaGraph);
  }

  /** test_utf8_count_graph_char */
  lemma CountGraphCharCase()
    ensures CountGraphChar(UTF8, CRLF, GraphText) == 5
  {
    GraphRead();
    GraphBytes();
    GraphLatinGraph();
    ClassCountOfGroups(UTF8, CRLF, GraphChars, GraphText, LatinGraph);
    GraphJaGraph();
    ClassCountOfGroups(UTF8, CRLF, GraphChars, GraphText, JaGraph);
    CharCountsPartition(UTF8, CRLF, GraphText);
  }

  /** "日本語\ta b\r\n" read with CRLF terminators. */
  const TabText: Bytes := [0xe6, 0x97, 0xa5, 0xe6, 0x9c, 0xac, 0xe8, 0xaa, 0x9e, 0x09, 0x61, 0x20, 0x62, 0x0d, 0x0a]
  const TabChars: Groups := GCons(Cons([0xe6, 0x97, 0xa5], Cons([0xe6, 0x9c, 0xac], Cons([0xe8, 0xaa, 0x9e], Cons([0x09], Nil)))), GCons(Cons([0x61], Cons([0x20], Cons([0x62], Cons([0x0d, 0x0a], Nil)))), GNil))

  lemma TabRead()
    ensures CharsRead(UTF8, CRLF, TabChars)
  {
  }

  lemma TabBytes()
    ensures GroupBytes(TabChars) == TabText
  {
  }

  lemma TabKinds()
    ensures KindOf(UTF8, [0xe6, 0x97, 0xa5]) == Kanji
    ensures KindOf(UTF8, [0xe6, 0x9c, 0xac]) == Kanji
    ensures KindOf(UTF8, [0xe8, 0xaa, 0x9e]) == Kanji
    ensures KindOf(UTF8, [0x0d, 0x0a]) == Break
  {
  }

  lemma TabLatinBlank()
    ensures ClassCount(Classifier(UTF8), TabChars, LatinBlank) == 2
  {
    TabKinds();
  }

  /** test_utf8_count_latin_blank_char */
  lemma CountLatinBlankCharCase()
    ensures CountLatinBlankChar(UTF8, CRLF, TabText) == 2
  {
    TabRead();
    TabBytes();
    TabLatinBlank();
    ClassCountOfGroups(UTF8, CRLF, TabChars, TabText, LatinBlank);
  }

  /** "日本　語\ta b\r\n" read with CRLF terminators. */
  const BlankText: Bytes := [0xe6, 0x97, 0xa5, 0xe6, 0x9c, 0xac, 0xe3, 0x80, 0x80, 0xe8, 0xaa, 0x9e, 0x09, 0x61, 0x20, 0x62, 0x0d, 0x0a]
  const BlankChars: Groups := GCons(Cons([0xe6, 0x97, 0xa5], Cons([0xe6, 0x9c, 0xac], Cons([0xe3, 0x80, 0x80], Cons([0xe8, 0xaa, 0x9e], Nil)))), GCons(Cons([0x09], Cons([0x61], Cons([0x20], Cons([0x62], Nil)))), GCons(Cons([0x0d, 0x0a], Nil), GNil)))

  lemma BlankRead()
    ensures CharsRead(UTF8, CRLF, BlankChars)
  {
  }

  lemma BlankBytes()
    ensures GroupBytes(BlankChars) == BlankText
  {
  }

  lemma BlankKinds()
    ensures KindOf(UTF8, [0xe6, 0x97, 0xa5]) == Kanji
    ensures KindOf(UTF8, [0xe6, 0x9c, 0xac]) == Kanji
    ensures KindOf(UTF8, [0xe3, 0x80, 0x80]) == WideBlank
    ensures KindOf(UTF8, [0xe8, 0xaa, 0x9e]) == Kanji
    ensures KindOf(UTF8, [0x0d, 0x0a]) == Break
  {
  }

  lemma BlankJaBlank()
    ensures ClassCount(Classifier(UTF8), BlankChars, JaBlank) == 1
  {
    BlankKinds();
  }

  lemma BlankLatinBlank()
    ensures ClassCount(Classifier(UTF8), BlankChars, LatinBlank) == 2
  {
    BlankKinds();
  }

  /** test_utf8_count_ja_blank_char */
  lemma CountJaBlankCharCase()
    ensures CountJaBlankChar(UTF8, CRLF, BlankText) == 1
  {
    BlankRead();
    BlankBytes();
    BlankJaBlank();
    ClassCountOfGroups(UTF8, CRLF, BlankChars, BlankText, JaBlank);
  }

  /** test_utf8_count_blank_char */
  lemma CountBlankCharCase()
    ensures CountBlankChar(UTF8, CRLF, BlankText) == 3
  {
    BlankRead();
    BlankBytes();
    BlankLatinBlank();
    ClassCountOfGroups(UTF8, CRLF, BlankChars, BlankText, LatinBlank);
    BlankJaBlank();
    ClassCountOfGroups(UTF8, CRLF, BlankChars, BlankText, JaBlank);
    CharCountsPartition(UTF8, CRLF, BlankText);
  }

  /** "日本　語a b --\r\n", whose words are "日本", "　", "語", "a ", "b ", "--", "\r\n". */
  const SpacedText: Bytes := [0xe6, 0x97, 0xa5, 0xe6, 0x9c, 0xac, 0xe3, 0x80, 0x80, 0xe8, 0xaa, 0x9e, 0x61, 0x20, 0x62, 0x20, 0x2d, 0x2d, 0x0d, 0x0a]
  const SpacedWords: Groups := GCons(Cons([0xe6, 0x97, 0xa5], Cons([0xe6, 0x9c, 0xac], Nil)), GCons(Cons([0xe3, 0x80, 0x80], Nil), GCons(Cons([0xe8, 0xaa, 0x9e], Nil), GCons(Cons([0x61], Cons([0x20], Nil)), GCons(Cons([0x62], Cons([0x20], Nil)), GCons(Cons([0x2d], Cons([0x2d], Nil)), GCons(Cons([0x0d], Cons([0x0a], Nil)), GNil)))))))

  lemma SpacedRead()
    ensures CharsRead(UTF8, NONE, SpacedWords)
  {
  }

  lemma SpacedWord0Kinds()
    ensures KindOf(UTF8, [0xe6, 0x97, 0xa5]) == Kanji
    ensures KindOf(UTF8, [0xe6, 0x9c, 0xac]) == Kanji
    ensures KindOf(UTF8, [0xe3, 0x80, 0x80]) == WideBlank
  {
  }

  lemma SpacedWord0()
    ensures WordFits(Classifier(UTF8), Cons([0xe6, 0x97, 0xa5], Cons([0xe6, 0x9c, 0xac], Nil)), Cons([0xe3, 0x80, 0x80], Nil))
  {
    SpacedWord0Kinds();
  }

  lemma SpacedWord1Kinds()
    ensures KindOf(UTF8, [0xe3, 0x80, 0x80]) == WideBlank
    ensures KindOf(UTF8, [0xe8, 0xaa, 0x9e]) == Kanji
  {
  }

  lemma SpacedWord1()
    ensures WordFits(Classifier(UTF8), Cons([0xe3, 0x80, 0x80], Nil), Cons([0xe8, 0xaa, 0x9e], Nil))
  {
    SpacedWord1Kinds();
  }

  lemma SpacedWord2Kinds()
    ensures KindOf(UTF8, [0xe8, 0xaa, 0x9e]) == Kanji
  {
  }

  lemma SpacedWord2()
    ensures WordFits(Classifier(UTF8), Cons([0xe8, 0xaa, 0x9e], Nil), Cons([0x61], Cons([0x20], Nil)))
  {
    SpacedWord2Kinds();
  }

  lemma SpacedWord3()
    ensures WordFits(Classifier(UTF8), Cons([0x61], Cons([0x20], Nil)), Cons([0x62], Cons([0x20], Nil)))
  {
  }

  lemma SpacedWord4()
    ensures WordFits(Classifier(UTF8), Cons([0x62], Cons([0x20], Nil)), Cons([0x2d], Cons([0x2d], Nil)))
  {
  }

  lemma SpacedWord5()
    ensures WordFits(Classifier(UTF8), Cons([0x2d], Cons([0x2d], Nil)), Cons([0x0d], Cons([0x0a], Nil)))
  {
  }

  lemma SpacedWord6()
    ensures WordFits(Classifier(UTF8), Cons([0x0d], Cons([0x0a], Nil)), Nil)
  {
  }

  lemma SpacedFit()
    ensures WordsRead(Classifier(UTF8), SpacedWords)
  {
    SpacedWord0(); SpacedWord1(); SpacedWord2(); SpacedWord3(); SpacedWord4(); SpacedWord5(); SpacedWord6();
  }

  lemma SpacedBytes()
    ensures GroupBytes(SpacedWords) == SpacedText
  {
  }

  lemma SpacedKinds()
    ensures KindOf(UTF8, [0xe6, 0x97, 0xa5]) == Kanji
    ensures KindOf(UTF8, [0xe6, 0x9c, 0xac]) == Kanji
    ensures KindOf(UTF8, [0xe3, 0x80, 0x80]) == WideBlank
    ensures KindOf(UTF8, [0xe8, 0xaa, 0x9e]) == Kanji
  {
  }

  lemma SpacedAnyWordTally()
    ensures WordCount(Classifier(UTF8), AnyWord, SpacedWords) == 7
  {
    SpacedKinds();
  }

  /** test_utf8_count_word */
  lemma CountWordCase()
    ensures CountWordsOf(UTF8, AnyWord, SpacedText) == 7
  {
    SpacedRead();
    SpacedFit();
    SpacedBytes();
    SpacedAnyWordTally();
    WordCountOfGroups(UTF8, AnyWord, SpacedWords, SpacedText);
  }

  lemma SpacedJaWordTally()
    ensures WordCount(Classifier(UTF8), JaWord, SpacedWords) == 3
  {
    SpacedKinds();
  }

  /** test_utf8_count_ja_word */
  lemma CountJaWordCase()
    ensures CountWordsOf(UTF8, JaWord, SpacedText) == 3
  {
    SpacedRead();
    SpacedFit();
    SpacedBytes();
    SpacedJaWordTally();
    WordCountOfGroups(UTF8, JaWord, SpacedWords, SpacedText);
  }

  lemma SpacedLatinValidWordTally()
    ensures WordCount(Classifier(UTF8), LatinValidWord, SpacedWords) == 2
  {
    SpacedKinds();
  }

  /** test_utf8_count_latin_valid_word */
  lemma CountLatinValidWordCase()
    ensures CountWordsOf(UTF8, LatinValidWord, SpacedText) == 2
  {
    SpacedRead();
    SpacedFit();
    SpacedBytes();
    SpacedLatinValidWordTally();
    WordCountOfGroups(UTF8, LatinValidWord, SpacedWords, SpacedText);
  }

  lemma SpacedJaValidWordTally()
    ensures WordCount(Classifier(UTF8), JaValidWord, SpacedWords) == 2
  {
    SpacedKinds();
  }

  /** test_utf8_count_ja_valid_word */
  lemma CountJaValidWordCase()
    ensures CountWordsOf(UTF8, JaValidWord, SpacedText) == 2
  {
    SpacedRead();
    SpacedFit();
    SpacedBytes();
    SpacedJaValidWordTally();
    WordCountOfGroups(UTF8, JaValidWord, SpacedWords, SpacedText);
  }

  /** test_utf8_count_valid_word */
  lemma CountValidWordCase()
    ensures CountWordsOf(UTF8, ValidWord, SpacedText) == 4
  {
    CountLatinValidWordCase();
    CountJaValidWordCase();
    WordCounts(UTF8, SpacedText);
  }

  /** "日本語\r\n　\r\n \r\n\r\nfoo\r\nbar" read with CRLF terminators, line by line. */
  const MixedText: Bytes := [0xe6, 0x97, 0xa5, 0xe6, 0x9c, 0xac, 0xe8, 0xaa, 0x9e, 0x0d, 0x0a, 0xe3, 0x80, 0x80, 0x0d, 0x0a, 0x20, 0x0d, 0x0a, 0x0d, 0x0a, 0x66, 0x6f, 0x6f, 0x0d, 0x0a, 0x62, 0x61, 0x72]
  const MixedRows: Rows := RCons(Cons([0xe6, 0x97, 0xa5], Cons([0xe6, 0x9c, 0xac], Cons([0xe8, 0xaa, 0x9e], Nil))), [0x0d, 0x0a], RCons(Cons([0xe3, 0x80, 0x80], Nil), [0x0d, 0x0a], RCons(Cons([0x20], Nil), [0x0d, 0x0a], RCons(Nil, [0x0d, 0x0a], RCons(Cons([0x66], Cons([0x6f], Cons([0x6f], Nil))), [0x0d, 0x0a], RCons(Cons([0x62], Cons([0x61], Cons([0x72], Nil))), [], RNil))))))

  lemma MixedRead()
    ensures RowsRead(UTF8, CRLF, MixedRows)
  {
  }

  lemma MixedBytes()
    ensures RowBytes(MixedRows) == MixedText
  {
  }

  lemma MixedLine0()
    ensures RowKind(UTF8, Cons([0xe6, 0x97, 0xa5], Cons([0xe6, 0x9c, 0xac], Cons([0xe8, 0xaa, 0x9e], Nil)))) == GraphLine
  {
  }

  lemma MixedLine1()
    ensures RowKind(UTF8, Cons([0xe3, 0x80, 0x80], Nil)) == BlankLine
  {
  }

  lemma MixedLine2()
    ensures RowKind(UTF8, Cons([0x20], Nil)) == BlankLine
  {
  }

  lemma MixedLine3()
    ensures RowKind(UTF8, Nil) == EmptyLine
  {
  }

  lemma MixedLine4()
    ensures RowKind(UTF8, Cons([0x66], Cons([0x6f], Cons([0x6f], Nil)))) == GraphLine
  {
  }

  lemma MixedLine5()
    ensures RowKind(UTF8, Cons([0x62], Cons([0x61], Cons([0x72], Nil)))) == GraphLine
  {
  }

  /** test_utf8_count_line */
  lemma CountLineCase()
    ensures CountLine(CRLF, MixedText) == 6
  {
    MixedRead(); MixedBytes();
    LineCountsOfRows(UTF8, CRLF, EmptyLine, MixedRows, MixedText);
  }

  lemma MixedGraphLineTally()
    ensures RowCount(UTF8, GraphLine, MixedRows) == 3
  {
    MixedLine0(); MixedLine1(); MixedLine2(); MixedLine3(); MixedLine4(); MixedLine5();
  }

  /** test_utf8_count_graph_line */
  lemma CountGraphLineCase()
    ensures CountLinesOf(UTF8, CRLF, GraphLine, MixedText) == 3
  {
    MixedRead(); MixedBytes(); MixedGraphLineTally();
    LineCountsOfRows(UTF8, CRLF, GraphLine, MixedRows, MixedText);
  }

  lemma MixedEmptyLineTally()
    ensures RowCount(UTF8, EmptyLine, MixedRows) == 1
  {
    MixedLine0(); MixedLine1(); MixedLine2(); MixedLine3(); MixedLine4(); MixedLine5();
  }

  /** test_utf8_count_empty_line */
  lemma CountEmptyLineCase()
    ensures CountLinesOf(UTF8, CRLF, EmptyLine, MixedText) == 1
  {
    MixedRead(); MixedBytes(); MixedEmptyLineTally();
    LineCountsOfRows(UTF8, CRLF, EmptyLine, MixedRows, MixedText);
  }

  lemma MixedBlankLineTally()
    ensures RowCount(UTF8, BlankLine, MixedRows) == 2
  {
    MixedLine0(); MixedLine1(); MixedLine2(); MixedLine3(); MixedLine4(); MixedLine5();
  }

  /** test_utf8_count_blank_line */
  lemma CountBlankLineCase()
    ensures CountLinesOf(UTF8, CRLF, BlankLine, MixedText) == 2
  {
    MixedRead(); MixedBytes(); MixedBlankLineTally();
    LineCountsOfRows(UTF8, CRLF, BlankLine, MixedRows, MixedText);
  }
}
