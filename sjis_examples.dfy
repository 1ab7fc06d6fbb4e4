/** The Shift_JIS cases of the test suite. */
module ShiftJisExamples {
  import opened ByteStrings
  import opened Tags
  import opened EncodingTable
  import opened Chars
  import opened Lines
  import opened Words
  import opened Counters
  import opened Literals

  /** "日本語の文字foo bar". */
  const MixedWordsText: Bytes := [0x93, 0xfa, 0x96, 0x7b, 0x8c, 0xea, 0x82, 0xcc, 0x95, 0xb6, 0x8e, 0x9a, 0x66, 0x6f, 0x6f, 0x20, 0x62, 0x61, 0x72]
  const MixedWordsWords: Groups := GCons(Cons([0x93, 0xfa], Cons([0x96, 0x7b], Cons([0x8c, 0xea], Cons([0x82, 0xcc], Nil)))), GCons(Cons([0x95, 0xb6], Cons([0x8e, 0x9a], Nil)), GCons(Cons([0x66], Cons([0x6f], Cons([0x6f], Cons([0x20], Nil)))), GCons(Cons([0x62], Cons([0x61], Cons([0x72], Nil))), GNil))))

  lemma MixedWordsRead()
    ensures CharsRead(Shift_JIS, NONE, MixedWordsWords)
  {
  }

  lemma MixedWordsWord0Kinds()
    ensures KindOf(Shift_JIS, [0x93, 0xfa]) == Kanji
    ensures KindOf(Shift_JIS, [0x96, 0x7b]) == Kanji
    ensures KindOf(Shift_JIS, [0x8c, 0xea]) == Kanji
    ensures KindOf(Shift_JIS, [0x82, 0xcc]) == Hiragana
    ensures KindOf(Shift_JIS, [0x95, 0xb6]) == Kanji
  {
  }

  lemma MixedWordsWord0()
    ensures WordFits(Classifier(Shift_JIS), Cons([0x93, 0xfa], Cons([0x96, 0x7b], Cons([0x8c, 0xea], Cons([0x82, 0xcc], Nil)))), Cons([0x95, 0xb6], Cons([0x8e, 0x9a], Nil)))
  {
    MixedWordsWord0Kinds();
  }

  lemma MixedWordsWord1Kinds()
    ensures KindOf(Shift_JIS, [0x95, 0xb6]) == Kanji
    ensures KindOf(Shift_JIS, [0x8e, 0x9a]) == Kanji
  {
  }

  lemma MixedWordsWord1()
    ensures WordFits(Classifier(Shift_JIS), Cons([0x95, 0xb6], Cons([0x8e, 0x9a], Nil)), Cons([0x66], Cons([0x6f], Cons([0x6f], Cons([0x20], Nil)))))
  {
    MixedWordsWord1Kinds();
  }

  lemma MixedWordsWord2()
    ensures WordFits(Classifier(Shift_JIS), Cons([0x66], Cons([0x6f], Cons([0x6f], Cons([0x20], Nil)))), Cons([0x62], Cons([0x61], Cons([0x72], Nil))))
  {
  }

  lemma MixedWordsWord3()
    ensures WordFits(Classifier(Shift_JIS), Cons([0x62], Cons([0x61], Cons([0x72], Nil))), Nil)
  {
  }

  lemma MixedWordsFit()
    ensures WordsRead(Classifier(Shift_JIS), MixedWordsWords)
  {
    MixedWordsWord0(); MixedWordsWord1(); MixedWordsWord2(); MixedWordsWord3();
  }

  lemma MixedWordsBytes()
    ensures GroupBytes(MixedWordsWords) == MixedWordsText
  {
  }

  /** test_sjis_to_word */
  lemma ToWordCase()
    ensures ToWord(Shift_JIS, MixedWordsText) == [[0x93, 0xfa, 0x96, 0x7b, 0x8c, 0xea, 0x82, 0xcc], [0x95, 0xb6, 0x8e, 0x9a], [0x66, 0x6f, 0x6f, 0x20], [0x62, 0x61, 0x72]]
  {
    assert GroupFlats(MixedWordsWords) == [[0x93, 0xfa, 0x96, 0x7b, 0x8c, 0xea, 0x82, 0xcc], [0x95, 0xb6, 0x8e, 0x9a], [0x66, 0x6f, 0x6f, 0x20], [0x62, 0x61, 0x72]] by {
      assert Join(Cons([0x93, 0xfa], Cons([0x96, 0x7b], Cons([0x8c, 0xea], Cons([0x82, 0xcc], Nil))))) == [0x93, 0xfa, 0x96, 0x7b, 0x8c, 0xea, 0x82, 0xcc];
      assert Join(Cons([0x95, 0xb6], Cons([0x8e, 0x9a], Nil))) == [0x95, 0xb6, 0x8e, 0x9a];
      assert Join(Cons([0x66], Cons([0x6f], Cons([0x6f], Cons([0x20], Nil))))) == [0x66, 0x6f, 0x6f, 0x20];
      assert Join(Cons([0x62], Cons([0x61], Cons([0x72], Nil)))) == [0x62, 0x61, 0x72];
    }
    MixedWordsRead();
    MixedWordsFit();
    MixedWordsBytes();
    ReadWordText(Shift_JIS, MixedWordsWords);
  }

  /** "日本語の文字". */
  const KanHiraWordsText: Bytes := [0x93, 0xfa, 0x96, 0x7b, 0x8c, 0xea, 0x82, 0xcc, 0x95, 0xb6, 0x8e, 0x9a]
  const KanHiraWordsWords: Groups := GCons(Cons([0x93, 0xfa], Cons([0x96, 0x7b], Cons([0x8c, 0xea], Cons([0x82, 0xcc], Nil)))), GCons(Cons([0x95, 0xb6], Cons([0x8e, 0x9a], Nil)), GNil))

  lemma KanHiraWordsRead()
    ensures CharsRead(Shift_JIS, NONE, KanHiraWordsWords)
  {
  }

  lemma KanHiraWordsWord0Kinds()
    ensures KindOf(Shift_JIS, [0x93, 0xfa]) == Kanji
    ensures KindOf(Shift_JIS, [0x96, 0x7b]) == Kanji
    ensures KindOf(Shift_JIS, [0x8c, 0xea]) == Kanji
    ensures KindOf(Shift_JIS, [0x82, 0xcc]) == Hiragana
    ensures KindOf(Shift_JIS, [0x95, 0xb6]) == Kanji
  {
  }

  lemma KanHiraWordsWord0()
    ensures WordFits(Classifier(Shift_JIS), Cons([0x93, 0xfa], Cons([0x96, 0x7b], Cons([0x8c, 0xea], Cons([0x82, 0xcc], Nil)))), Cons([0x95, 0xb6], Cons([0x8e, 0x9a], Nil)))
  {
    KanHiraWordsWord0Kinds();
  }

  lemma KanHiraWordsWord1Kinds()
    ensures KindOf(Shift_JIS, [0x95, 0xb6]) == Kanji
    ensures KindOf(Shift_JIS, [0x8e, 0x9a]) == Kanji
  {
  }

  lemma KanHiraWordsWord1()
    ensures WordFits(Classifier(Shift_JIS), Cons([0x95, 0xb6], Cons([0x8e, 0x9a], Nil)), Nil)
  {
    KanHiraWordsWord1Kinds();
  }

  lemma KanHiraWordsFit()
    ensures WordsRead(Classifier(Shift_JIS), KanHiraWordsWords)
  {
    KanHiraWordsWord0(); KanHiraWordsWord1();
  }

  lemma KanHiraWordsBytes()
    ensures GroupBytes(KanHiraWordsWords) == KanHiraWordsText
  {
  }

  /** test_sjis_to_word_kanhira */
  lemma ToWordKanhiraCase()
    ensures ToWord(Shift_JIS, KanHiraWordsText) == [[0x93, 0xfa, 0x96, 0x7b, 0x8c, 0xea, 0x82, 0xcc], [0x95, 0xb6, 0x8e, 0x9a]]
  {
    assert GroupFlats(KanHiraWordsWords) == [[0x93, 0xfa, 0x96, 0x7b, 0x8c, 0xea, 0x82, 0xcc], [0x95, 0xb6, 0x8e, 0x9a]] by {
      assert Join(Cons([0x93, 0xfa], Cons([0x96, 0x7b], Cons([0x8c, 0xea], Cons([0x82, 0xcc], Nil))))) == [0x93, 0xfa, 0x96, 0x7b, 0x8c, 0xea, 0x82, 0xcc];
      assert Join(Cons([0x95, 0xb6], Cons([0x8e, 0x9a], Nil))) == [0x95, 0xb6, 0x8e, 0x9a];
    }
    KanHiraWordsRead();
    KanHiraWordsFit();
    KanHiraWordsBytes();
    ReadWordText(Shift_JIS, KanHiraWordsWords);
  }

  /** "カタカナの文字". */
  const KataHiraWordsText: Bytes := [0x83, 0x4a, 0x83, 0x5e, 0x83, 0x4a, 0x83, 0x69, 0x82, 0xcc, 0x95, 0xb6, 0x8e, 0x9a]
  const KataHiraWordsWords: Groups := GCons(Cons([0x83, 0x4a], Cons([0x83, 0x5e], Cons([0x83, 0x4a], Cons([0x83, 0x69], Cons([0x82, 0xcc], Nil))))), GCons(Cons([0x95, 0xb6], Cons([0x8e, 0x9a], Nil)), GNil))

  lemma KataHiraWordsRead()
    ensures CharsRead(Shift_JIS, NONE, KataHiraWordsWords)
  {
  }

  lemma KataHiraWordsWord0Kinds()
    ensures KindOf(Shift_JIS, [0x83, 0x4a]) == Katakana
    ensures KindOf(Shift_JIS, [0x83, 0x5e]) == Katakana
    ensures KindOf(Shift_JIS, [0x83, 0x69]) == Katakana
    ensures KindOf(Shift_JIS, [0x82, 0xcc]) == Hiragana
    ensures KindOf(Shift_JIS, [0x95, 0xb6]) == Kanji
  {
  }

  lemma KataHiraWordsWord0()
    ensures WordFits(Classifier(Shift_JIS), Cons([0x83, 0x4a], Cons([0x83, 0x5e], Cons([0x83, 0x4a], Cons([0x83, 0x69], Cons([0x82, 0xcc], Nil))))), Cons([0x95, 0xb6], Cons([0x8e, 0x9a], Nil)))
  {
    KataHiraWordsWord0Kinds();
  }

  lemma KataHiraWordsWord1Kinds()
    ensures KindOf(Shift_JIS, [0x95, 0xb6]) == Kanji
    ensures KindOf(Shift_JIS, [0x8e, 0x9a]) == Kanji
  {
  }

  lemma KataHiraWordsWord1()
    ensures WordFits(Classifier(Shift_JIS), Cons([0x95, 0xb6], Cons([0x8e, 0x9a], Nil)), Nil)
  {
    KataHiraWordsWord1Kinds();
  }

  lemma KataHiraWordsFit()
    ensures WordsRead(Classifier(Shift_JIS), KataHiraWordsWords)
  {
    KataHiraWordsWord0(); KataHiraWordsWord1();
  }

  lemma KataHiraWordsBytes()
    ensures GroupBytes(KataHiraWordsWords) == KataHiraWordsText
  {
  }

  /** test_sjis_to_word_katahira */
  lemma ToWordKatahiraCase()
    ensures ToWord(Shift_JIS, KataHiraWordsText) == [[0x83, 0x4a, 0x83, 0x5e, 0x83, 0x4a, 0x83, 0x69, 0x82, 0xcc], [0x95, 0xb6, 0x8e, 0x9a]]
  {
    assert GroupFlats(KataHiraWordsWords) == [[0x83, 0x4a, 0x83, 0x5e, 0x83, 0x4a, 0x83, 0x69, 0x82, 0xcc], [0x95, 0xb6, 0x8e, 0x9a]] by {
      assert Join(Cons([0x83, 0x4a], Cons([0x83, 0x5e], Cons([0x83, 0x4a], Cons([0x83, 0x69], Cons([0x82, 0xcc], Nil)))))) == [0x83, 0x4a, 0x83, 0x5e, 0x83, 0x4a, 0x83, 0x69, 0x82, 0xcc];
      assert Join(Cons([0x95, 0xb6], Cons([0x8e, 0x9a], Nil))) == [0x95, 0xb6, 0x8e, 0x9a];
    }
    KataHiraWordsRead();
    KataHiraWordsFit();
    KataHiraWordsBytes();
    ReadWordText(Shift_JIS, KataHiraWordsWords);
  }

  /** "ルビーの指輪". */
  const KataOnbikiWordsText: Bytes := [0x83, 0x8b, 0x83, 0x72, 0x81, 0x5b, 0x82, 0xcc, 0x8e, 0x77, 0x97, 0xd6]
  const KataOnbikiWordsWords: Groups := GCons(Cons([0x83, 0x8b], Cons([0x83, 0x72], Cons([0x81, 0x5b], Cons([0x82, 0xcc], Nil)))), GCons(Cons([0x8e, 0x77], Cons([0x97, 0xd6], Nil)), GNil))

  lemma KataOnbikiWordsRead()
    ensures CharsRead(Shift_JIS, NONE, KataOnbikiWordsWords)
  {
  }

  lemma KataOnbikiWordsWord0Kinds()
    ensures KindOf(Shift_JIS, [0x83, 0x8b]) == Katakana
    ensures KindOf(Shift_JIS, [0x83, 0x72]) == Katakana
    ensures KindOf(Shift_JIS, [0x81, 0x5b]) == Prolonged
    ensures KindOf(Shift_JIS, [0x82, 0xcc]) == Hiragana
    ensures KindOf(Shift_JIS, [0x8e, 0x77]) == Kanji
  {
  }

  lemma KataOnbikiWordsWord0()
    ensures WordFits(Classifier(Shift_JIS), Cons([0x83, 0x8b], Cons([0x83, 0x72], Cons([0x81, 0x5b], Cons([0x82, 0xcc], Nil)))), Cons([0x8e, 0x77], Cons([0x97, 0xd6], Nil)))
  {
    KataOnbikiWordsWord0Kinds();
  }

  lemma KataOnbikiWordsWord1Kinds()
    ensures KindOf(Shift_JIS, [0x8e, 0x77]) == Kanji
    ensures KindOf(Shift_JIS, [0x97, 0xd6]) == Kanji
  {
  }

  lemma KataOnbikiWordsWord1()
    ensures WordFits(Classifier(Shift_JIS), Cons([0x8e, 0x77], Cons([0x97, 0xd6], Nil)), Nil)
  {
    KataOnbikiWordsWord1Kinds();
  }

  lemma KataOnbikiWordsFit()
    ensures WordsRead(Classifier(Shift_JIS), KataOnbikiWordsWords)
  {
    KataOnbikiWordsWord0(); KataOnbikiWordsWord1();
  }

  lemma KataOnbikiWordsBytes()
    ensures GroupBytes(KataOnbikiWordsWords) == KataOnbikiWordsText
  {
  }

  /** test_sjis_to_word_kataonbiki */
  lemma ToWordKataonbikiCase()
    ensures ToWord(Shift_JIS, KataOnbikiWordsText) == [[0x83, 0x8b, 0x83, 0x72, 0x81, 0x5b, 0x82, 0xcc], [0x8e, 0x77, 0x97, 0xd6]]
  {
    assert GroupFlats(KataOnbikiWordsWords) == [[0x83, 0x8b, 0x83, 0x72, 0x81, 0x5b, 0x82, 0xcc], [0x8e, 0x77, 0x97, 0xd6]] by {
      assert Join(Cons([0x83, 0x8b], Cons([0x83, 0x72], Cons([0x81, 0x5b], Cons([0x82, 0xcc], Nil))))) == [0x83, 0x8b, 0x83, 0x72, 0x81, 0x5b, 0x82, 0xcc];
      assert Join(Cons([0x8e, 0x77], Cons([0x97, 0xd6], Nil))) == [0x8e, 0x77, 0x97, 0xd6];
    }
    KataOnbikiWordsRead();
    KataOnbikiWordsFit();
    KataOnbikiWordsBytes();
    ReadWordText(Shift_JIS, KataOnbikiWordsWords);
  }

  /** "わールビーだ". */
  const HiraOnbikiWordsText: Bytes := [0x82, 0xed, 0x81, 0x5b, 0x83, 0x8b, 0x83, 0x72, 0x81, 0x5b, 0x82, 0xbe]
  const HiraOnbikiWordsWords: Groups := GCons(Cons([0x82, 0xed], Cons([0x81, 0x5b], Nil)), GCons(Cons([0x83, 0x8b], Cons([0x83, 0x72], Cons([0x81, 0x5b], Cons([0x82, 0xbe], Nil)))), GNil))

  lemma HiraOnbikiWordsRead()
    ensures CharsRead(Shift_JIS, NONE, HiraOnbikiWordsWords)
  {
  }

  lemma HiraOnbikiWordsWord0Kinds()
    ensures KindOf(Shift_JIS, [0x82, 0xed]) == Hiragana
    ensures KindOf(Shift_JIS, [0x81, 0x5b]) == Prolonged
    ensures KindOf(Shift_JIS, [0x83, 0x8b]) == Katakana
  {
  }

  lemma HiraOnbikiWordsWord0()
    ensures WordFits(Classifier(Shift_JIS), Cons([0x82, 0xed], Cons([0x81, 0x5b], Nil)), Cons([0x83, 0x8b], Cons([0x83, 0x72], Cons([0x81, 0x5b], Cons([0x82, 0xbe], Nil)))))
  {
    HiraOnbikiWordsWord0Kinds();
  }

  lemma HiraOnbikiWordsWord1Kinds()
    ensures KindOf(Shift_JIS, [0x83, 0x8b]) == Katakana
    ensures KindOf(Shift_JIS, [0x83, 0x72]) == Katakana
    ensures KindOf(Shift_JIS, [0x81, 0x5b]) == Prolonged
    ensures KindOf(Shift_JIS, [0x82, 0xbe]) == Hiragana
  {
  }

  lemma HiraOnbikiWordsWord1()
    ensures WordFits(Classifier(Shift_JIS), Cons([0x83, 0x8b], Cons([0x83, 0x72], Cons([0x81, 0x5b], Cons([0x82, 0xbe], Nil)))), Nil)
  {
    HiraOnbikiWordsWord1Kinds();
  }

  lemma HiraOnbikiWordsFit()
    ensures WordsRead(Classifier(Shift_JIS), HiraOnbikiWordsWords)
  {
    HiraOnbikiWordsWord0(); HiraOnbikiWordsWord1();
  }

  lemma HiraOnbikiWordsBytes()
    ensures GroupBytes(HiraOnbikiWordsWords) == HiraOnbikiWordsText
  {
  }

  /** test_sjis_to_word_hiraonbiki */
  lemma ToWordHiraonbikiCase()
    ensures ToWord(Shift_JIS, HiraOnbikiWordsText) == [[0x82, 0xed, 0x81, 0x5b], [0x83, 0x8b, 0x83, 0x72, 0x81, 0x5b, 0x82, 0xbe]]
  {
    assert GroupFlats(HiraOnbikiWordsWords) == [[0x82, 0xed, 0x81, 0x5b], [0x83, 0x8b, 0x83, 0x72, 0x81, 0x5b, 0x82, 0xbe]] by {
      assert Join(Cons([0x82, 0xed], Cons([0x81, 0x5b], Nil))) == [0x82, 0xed, 0x81, 0x5b];
      assert Join(Cons([0x83, 0x8b], Cons([0x83, 0x72], Cons([0x81, 0x5b], Cons([0x82, 0xbe], Nil))))) == [0x83, 0x8b, 0x83, 0x72, 0x81, 0x5b, 0x82, 0xbe];
    }
    HiraOnbikiWordsRead();
    HiraOnbikiWordsFit();
    HiraOnbikiWordsBytes();
    ReadWordText(Shift_JIS, HiraOnbikiWordsWords);
  }

  /** "日本語とLatinの文字". */
  const LatinMixWordsText: Bytes := [0x93, 0xfa, 0x96, 0x7b, 0x8c, 0xea, 0x82, 0xc6, 0x4c, 0x61, 0x74, 0x69, 0x6e, 0x82, 0xcc, 0x95, 0xb6, 0x8e, 0x9a]
  const LatinMixWordsWords: Groups := GCons(Cons([0x93, 0xfa], Cons([0x96, 0x7b], Cons([0x8c, 0xea], Cons([0x82, 0xc6], Nil)))), GCons(Cons([0x4c], Cons([0x61], Cons([0x74], Cons([0x69], Cons([0x6e], Nil))))), GCons(Cons([0x82, 0xcc], Nil), GCons(Cons([0x95, 0xb6], Cons([0x8e, 0x9a], Nil)), GNil))))

  lemma LatinMixWordsRead()
    ensures CharsRead(Shift_JIS, NONE, LatinMixWordsWords)
  {
  }

  lemma LatinMixWordsWord0Kinds()
    ensures KindOf(Shift_JIS, [0x93, 0xfa]) == Kanji
    ensures KindOf(Shift_JIS, [0x96, 0x7b]) == Kanji
    ensures KindOf(Shift_JIS, [0x8c, 0xea]) == Kanji
    ensures KindOf(Shift_JIS, [0x82, 0xc6]) == Hiragana
  {
  }

  lemma LatinMixWordsWord0()
    ensures WordFits(Classifier(Shift_JIS), Cons([0x93, 0xfa], Cons([0x96, 0x7b], Cons([0x8c, 0xea], Cons([0x82, 0xc6], Nil)))), Cons([0x4c], Cons([0x61], Cons([0x74], Cons([0x69], Cons([0x6e], Nil))))))
  {
    LatinMixWordsWord0Kinds();
  }

  lemma LatinMixWordsWord1Kinds()
    ensures KindOf(Shift_JIS, [0x82, 0xcc]) == Hiragana
  {
  }

  lemma LatinMixWordsWord1()
    ensures WordFits(Classifier(Shift_JIS), Cons([0x4c], Cons([0x61], Cons([0x74], Cons([0x69], Cons([0x6e], Nil))))), Cons([0x82, 0xcc], Nil))
  {
    LatinMixWordsWord1Kinds();
  }

  lemma LatinMixWordsWord2Kinds()
    ensures KindOf(Shift_JIS, [0x82, 0xcc]) == Hiragana
    ensures KindOf(Shift_JIS, [0x95, 0xb6]) == Kanji
  {
  }

  lemma LatinMixWordsWord2()
    ensures WordFits(Classifier(Shift_JIS), Cons([0x82, 0xcc], Nil), Cons([0x95, 0xb6], Cons([0x8e, 0x9a], Nil)))
  {
    LatinMixWordsWord2Kinds();
  }

  lemma LatinMixWordsWord3Kinds()
    ensures KindOf(Shift_JIS, [0x95, 0xb6]) == Kanji
    ensures KindOf(Shift_JIS, [0x8e, 0x9a]) == Kanji
  {
  }

  lemma LatinMixWordsWord3()
    ensures WordFits(Classifier(Shift_JIS), Cons([0x95, 0xb6], Cons([0x8e, 0x9a], Nil)), Nil)
  {
    LatinMixWordsWord3Kinds();
  }

  lemma LatinMixWordsFit()
    ensures WordsRead(Classifier(Shift_JIS), LatinMixWordsWords)
  {
    LatinMixWordsWord0(); LatinMixWordsWord1(); LatinMixWordsWord2(); LatinMixWordsWord3();
  }

  lemma LatinMixWordsBytes()
    ensures GroupBytes(LatinMixWordsWords) == LatinMixWordsText
  {
  }

  /** test_sjis_to_word_latinmix */
  lemma ToWordLatinmixCase()
    ensures ToWord(Shift_JIS, LatinMixWordsText) == [[0x93, 0xfa, 0x96, 0x7b, 0x8c, 0xea, 0x82, 0xc6], [0x4c, 0x61, 0x74, 0x69, 0x6e], [0x82, 0xcc], [0x95, 0xb6, 0x8e, 0x9a]]
  {
    assert GroupFlats(LatinMixWordsWords) == [[0x93, 0xfa, 0x96, 0x7b, 0x8c, 0xea, 0x82, 0xc6], [0x4c, 0x61, 0x74, 0x69, 0x6e], [0x82, 0xcc], [0x95, 0xb6, 0x8e, 0x9a]] by {
      assert Join(Cons([0x93, 0xfa], Cons([0x96, 0x7b], Cons([0x8c, 0xea], Cons([0x82, 0xc6], Nil))))) == [0x93, 0xfa, 0x96, 0x7b, 0x8c, 0xea, 0x82, 0xc6];
      assert Join(Cons([0x4c], Cons([0x61], Cons([0x74], Cons([0x69], Cons([0x6e], Nil)))))) == [0x4c, 0x61, 0x74, 0x69, 0x6e];
      assert Join(Cons([0x82, 0xcc], Nil)) == [0x82, 0xcc];
      assert Join(Cons([0x95, 0xb6], Cons([0x8e, 0x9a], Nil))) == [0x95, 0xb6, 0x8e, 0x9a];
    }
    LatinMixWordsRead();
    LatinMixWordsFit();
    LatinMixWordsBytes();
    ReadWordText(Shift_JIS, LatinMixWordsWords);
  }

  /** "表計算a b" read with LF terminators. */
  const PlainCharsText: Bytes := [0x95, 0x5c, 0x8c, 0x76, 0x8e, 0x5a, 0x61, 0x20, 0x62]
  const PlainCharsChars: Groups := GCons(Cons([0x95, 0x5c], Cons([0x8c, 0x76], Cons([0x8e, 0x5a], Cons([0x61], Nil)))), GCons(Cons([0x20], Cons([0x62], Nil)), GNil))

  lemma PlainCharsRead()
    ensures CharsRead(Shift_JIS, LF, PlainCharsChars)
  {
  }

  lemma PlainCharsBytes()
    ensures GroupBytes(PlainCharsChars) == PlainCharsText
  {
  }

  lemma PlainCharsTokens()
    ensures GroupTokens(PlainCharsChars) == [[0x95, 0x5c], [0x8c, 0x76], [0x8e, 0x5a], [0x61], [0x20], [0x62]]
  {
  }

  /** test_sjis_to_char */
  lemma ToCharCase()
    ensures ToChar(Shift_JIS, LF, PlainCharsText) == [[0x95, 0x5c], [0x8c, 0x76], [0x8e, 0x5a], [0x61], [0x20], [0x62]]
  {
    PlainCharsRead();
    PlainCharsBytes();
    PlainCharsTokens();
    ReadChars(Shift_JIS, LF, PlainCharsChars);
  }

  /** "表計算a b\r" read with CR terminators. */
  const CrCharsText: Bytes := [0x95, 0x5c, 0x8c, 0x76, 0x8e, 0x5a, 0x61, 0x20, 0x62, 0x0d]
  const CrCharsChars: Groups := GCons(Cons([0x95, 0x5c], Cons([0x8c, 0x76], Cons([0x8e, 0x5a], Cons([0x61], Nil)))), GCons(Cons([0x20], Cons([0x62], Cons([0x0d], Nil))), GNil))

  lemma CrCharsRead()
    ensures CharsRead(Shift_JIS, CR, CrCharsChars)
  {
  }

  lemma CrCharsBytes()
    ensures GroupBytes(CrCharsChars) == CrCharsText
  {
  }

  lemma CrCharsTokens()
    ensures GroupTokens(CrCharsChars) == [[0x95, 0x5c], [0x8c, 0x76], [0x8e, 0x5a], [0x61], [0x20], [0x62], [0x0d]]
  {
  }

  /** test_sjis_to_char_with_cr */
  lemma ToCharWithCrCase()
    ensures ToChar(Shift_JIS, CR, CrCharsText) == [[0x95, 0x5c], [0x8c, 0x76], [0x8e, 0x5a], [0x61], [0x20], [0x62], [0x0d]]
  {
    CrCharsRead();
    CrCharsBytes();
    CrCharsTokens();
    ReadChars(Shift_JIS, CR, CrCharsChars);
  }

  /** "表計算a b\n" read with LF terminators. */
  const LfCharsText: Bytes := [0x95, 0x5c, 0x8c, 0x76, 0x8e, 0x5a, 0x61, 0x20, 0x62, 0x0a]
  const LfCharsChars: Groups := GCons(Cons([0x95, 0x5c], Cons([0x8c, 0x76], Cons([0x8e, 0x5a], Cons([0x61], Nil)))), GCons(Cons([0x20], Cons([0x62], Cons([0x0a], Nil))), GNil))

  lemma LfCharsRead()
    ensures CharsRead(Shift_JIS, LF, LfCharsChars)
  {
  }

  lemma LfCharsBytes()
    ensures GroupBytes(LfCharsChars) == LfCharsText
  {
  }

  lemma LfCharsTokens()
    ensures GroupTokens(LfCharsChars) == [[0x95, 0x5c], [0x8c, 0x76], [0x8e, 0x5a], [0x61], [0x20], [0x62], [0x0a]]
  {
  }

  /** test_sjis_to_char_with_lf */
  lemma ToCharWithLfCase()
    ensures ToChar(Shift_JIS, LF, LfCharsText) == [[0x95, 0x5c], [0x8c, 0x76], [0x8e, 0x5a], [0x61], [0x20], [0x62], [0x0a]]
  {
    LfCharsRead();
    LfCharsBytes();
    LfCharsTokens();
    ReadChars(Shift_JIS, LF, LfCharsChars);
  }

  /** "表計算a b\r\n" read with CRLF terminators. */
  const CrlfCharsText: Bytes := [0x95, 0x5c, 0x8c, 0x76, 0x8e, 0x5a, 0x61, 0x20, 0x62, 0x0d, 0x0a]
  const CrlfCharsChars: Groups := GCons(Cons([0x95, 0x5c], Cons([0x8c, 0x76], Cons([0x8e, 0x5a], Cons([0x61], Nil)))), GCons(Cons([0x20], Cons([0x62], Cons([0x0d, 0x0a], Nil))), GNil))

  lemma CrlfCharsRead()
    ensures CharsRead(Shift_JIS, CRLF, CrlfCharsChars)
  {
  }

  lemma CrlfCharsBytes()
    ensures GroupBytes(CrlfCharsChars) == CrlfCharsText
  {
  }

  lemma CrlfCharsTokens()
    ensures GroupTokens(CrlfCharsChars) == [[0x95, 0x5c], [0x8c, 0x76], [0x8e, 0x5a], [0x61], [0x20], [0x62], [0x0d, 0x0a]]
  {
  }

  /** test_sjis_to_char_with_crlf */
  lemma ToCharWithCrlfCase()
    ensures ToChar(Shift_JIS, CRLF, CrlfCharsText) == [[0x95, 0x5c], [0x8c, 0x76], [0x8e, 0x5a], [0x61], [0x20], [0x62], [0x0d, 0x0a]]
  {
    CrlfCharsRead();
    CrlfCharsBytes();
    CrlfCharsTokens();
    ReadChars(Shift_JIS, CRLF, CrlfCharsChars);
  }

  /** "日本語a b\r\n" read with CRLF terminators. */
  const GraphText: Bytes := [0x93, 0xfa, 0x96, 0x7b, 0x8c, 0xea, 0x61, 0x20, 0x62, 0x0d, 0x0a]
  const GraphChars: Groups := GCons(Cons([0x93, 0xfa], Cons([0x96, 0x7b], Cons([0x8c, 0xea], Cons([0x61], Nil)))), GCons(Cons([0x20], Cons([0x62], Cons([0x0d, 0x0a], Nil))), GNil))

  lemma GraphRead()
    ensures CharsRead(Shift_JIS, CRLF, GraphChars)
  {
  }

  lemma GraphBytes()
    ensures GroupBytes(GraphChars) == GraphText
  {
  }

  lemma GraphKinds()
    ensures KindOf(Shift_JIS, [0x93, 0xfa]) == Kanji
    ensures KindOf(Shift_JIS, [0x96, 0x7b]) == Kanji
    ensures KindOf(Shift_JIS, [0x8c, 0xea]) == Kanji
    ensures KindOf(Shift_JIS, [0x0d, 0x0a]) == Break
  {
  }

  lemma GraphLatinGraph()
    ensures ClassCount(Classifier(Shift_JIS), GraphChars, LatinGraph) == 2
  {
    GraphKinds();
  }

  lemma GraphJaGraph()
    ensures ClassCount(Classifier(Shift_JIS), GraphChars, JaGraph) == 3
  {
    GraphKinds();
  }

  lemma GraphLength()
    ensures |GroupTokens(GraphChars)| == 7
  {
  }

  /** test_sjis_count_char */
  lemma CountCharCase()
    ensures CountChar(Shift_JIS, CRLF, GraphText) == 7
  {
    GraphRead();
    GraphBytes();
    GraphLength();
    CharCountOfGroups(Shift_JIS, CRLF, GraphChars, GraphText);
  }

  /** test_sjis_count_latin_graph_char */
  lemma CountLatinGraphCharCase()
    ensures CountLatinGraphChar(Shift_JIS, CRLF, GraphText) == 2
  {
    GraphRead();
    GraphBytes();
    GraphLatinGraph();
    ClassCountOfGroups(Shift_JIS, CRLF, GraphChars, GraphText, LatinGraph);
  }

  /** test_sjis_count_ja_graph_char */
  lemma CountJaGraphCharCase()
    ensures CountJaGraphChar(Shift_JIS, CRLF, GraphText) == 3
  {
    GraphRead();
    GraphBytes();
    GraphJaGraph();
    ClassCountOfGroups(Shift_JIS, CRLF, GraphChars, GraphText, JaGraph);
  }

  /** test_sjis_count_graph_char */
  lemma CountGraphCharCase()
    ensures CountGraphChar(Shift_JIS, CRLF, GraphText) == 5
  {
    GraphRead();
    GraphBytes();
    GraphLatinGraph();
    ClassCountOfGroups(Shift_JIS, CRLF, GraphChars, GraphText, LatinGraph);
    GraphJaGraph();
    ClassCountOfGroups(Shift_JIS, CRLF, GraphChars, GraphText, JaGraph);
    CharCountsPartition(Shift_JIS, CRLF, GraphText);
  }

  /** "日本語\ta b\r\n" read with CRLF terminators. */
  const TabText: Bytes := [0x93, 0xfa, 0x96, 0x7b, 0x8c, 0xea, 0x09, 0x61, 0x20, 0x62, 0x0d, 0x0a]
  const TabChars: Groups := GCons(Cons([0x93, 0xfa], Cons([0x96, 0x7b], Cons([0x8c, 0xea], Cons([0x09], Nil)))), GCons(Cons([0x61], Cons([0x20], Cons([0x62], Cons([0x0d, 0x0a], Nil)))), GNil))

  lemma TabRead()
    ensures CharsRead(Shift_JIS, CRLF, TabChars)
  {
  }

  lemma TabBytes()
    ensures GroupBytes(TabChars) == TabText
  {
  }

  lemma TabKinds()
    ensures KindOf(Shift_JIS, [0x93, 0xfa]) == Kanji
    ensures KindOf(Shift_JIS, [0x96, 0x7b]) == Kanji
    ensures KindOf(Shift_JIS, [0x8c, 0xea]) == Kanji
    ensures KindOf(Shift_JIS, [0x0d, 0x0a]) == Break
  {
  }

  lemma TabLatinBlank()
    ensures ClassCount(Classifier(Shift_JIS), TabChars, LatinBlank) == 2
  {
    TabKinds();
  }

  /** test_sjis_count_latin_blank_char */
  lemma CountLatinBlankCharCase()
    ensures CountLatinBlankChar(Shift_JIS, CRLF, TabText) == 2
  {
    TabRead();
    TabBytes();
    TabLatinBlank();
    ClassCountOfGroups(Shift_JIS, CRLF, TabChars, TabText, LatinBlank);
  }

  /** "日本　語\ta b\r\n" read with CRLF terminators. */
  const BlankText: Bytes := [0x93, 0xfa, 0x96, 0x7b, 0x81, 0x40, 0x8c, 0xea, 0x09, 0x61, 0x20, 0x62, 0x0d, 0x0a]
  const BlankChars: Groups := GCons(Cons([0x93, 0xfa], Cons([0x96, 0x7b], Cons([0x81, 0x40], Cons([0x8c, 0xea], Nil)))), GCons(Cons([0x09], Cons([0x61], Cons([0x20], Cons([0x62], Nil)))), GCons(Cons([0x0d, 0x0a], Nil), GNil)))

  lemma BlankRead()
    ensures CharsRead(Shift_JIS, CRLF, BlankChars)
  {
  }

  lemma BlankBytes()
    ensures GroupBytes(BlankChars) == BlankText
  {
  }

  lemma BlankKinds()
    ensures KindOf(Shift_JIS, [0x93, 0xfa]) == Kanji
    ensures KindOf(Shift_JIS, [0x96, 0x7b]) == Kanji
    ensures KindOf(Shift_JIS, [0x81, 0x40]) == WideBlank
    ensures KindOf(Shift_JIS, [0x8c, 0xea]) == Kanji
    ensures KindOf(Shift_JIS, [0x0d, 0x0a]) == Break
  {
  }

  lemma BlankJaBlank()
    ensures ClassCount(Classifier(Shift_JIS), BlankChars, JaBlank) == 1
  {
    BlankKinds();
  }

  lemma BlankLatinBlank()
    ensures ClassCount(Classifier(Shift_JIS), BlankChars, LatinBlank) == 2
  {
    BlankKinds();
  }

  /** test_sjis_count_ja_blank_char */
  lemma CountJaBlankCharCase()
    ensures CountJaBlankChar(Shift_JIS, CRLF, BlankText) == 1
  {
    BlankRead();
    BlankBytes();
    BlankJaBlank();
    ClassCountOfGroups(Shift_JIS, CRLF, BlankChars, BlankText, JaBlank);
  }

  /** test_sjis_count_blank_char */
  lemma CountBlankCharCase()
    ensures CountBlankChar(Shift_JIS, CRLF, BlankText) == 3
  {
    BlankRead();
    BlankBytes();
    BlankLatinBlank();
    ClassCountOfGroups(Shift_JIS, CRLF, BlankChars, BlankText, LatinBlank);
    BlankJaBlank();
    ClassCountOfGroups(Shift_JIS, CRLF, BlankChars, BlankText, JaBlank);
    CharCountsPartition(Shift_JIS, CRLF, BlankText);
  }

  /** "日本　語a b --\r\n", whose words are "日本", "　", "語", "a ", "b ", "--", "\r\n". */
  const SpacedText: Bytes := [0x93, 0xfa, 0x96, 0x7b, 0x81, 0x40, 0x8c, 0xea, 0x61, 0x20, 0x62, 0x20, 0x2d, 0x2d, 0x0d, 0x0a]
  const SpacedWords: Groups := GCons(Cons([0x93, 0xfa], Cons([0x96, 0x7b], Nil)), GCons(Cons([0x81, 0x40], Nil), GCons(Cons([0x8c, 0xea], Nil), GCons(Cons([0x61], Cons([0x20], Nil)), GCons(Cons([0x62], Cons([0x20], Nil)), GCons(Cons([0x2d], Cons([0x2d], Nil)), GCons(Cons([0x0d], Cons([0x0a], Nil)), GNil)))))))

  lemma SpacedRead()
    ensures CharsRead(Shift_JIS, NONE, SpacedWords)
  {
  }

  lemma SpacedWord0Kinds()
    ensures KindOf(Shift_JIS, [0x93, 0xfa]) == Kanji
    ensures KindOf(Shift_JIS, [0x96, 0x7b]) == Kanji
    ensures KindOf(Shift_JIS, [0x81, 0x40]) == WideBlank
  {
  }

  lemma SpacedWord0()
    ensures WordFits(Classifier(Shift_JIS), Cons([0x93, 0xfa], Cons([0x96, 0x7b], Nil)), Cons([0x81, 0x40], Nil))
  {
    SpacedWord0Kinds();
  }

  lemma SpacedWord1Kinds()
    ensures KindOf(Shift_JIS, [0x81, 0x40]) == WideBlank
    ensures KindOf(Shift_JIS, [0x8c, 0xea]) == Kanji
  {
  }

  lemma SpacedWord1()
    ensures WordFits(Classifier(Shift_JIS), Cons([0x81, 0x40], Nil), Cons([0x8c, 0xea], Nil))
  {
    SpacedWord1Kinds();
  }

  lemma SpacedWord2Kinds()
    ensures KindOf(Shift_JIS, [0x8c, 0xea]) == Kanji
  {
  }

  lemma SpacedWord2()
    ensures WordFits(Classifier(Shift_JIS), Cons([0x8c, 0xea], Nil), Cons([0x61], Cons([0x20], Nil)))
  {
    SpacedWord2Kinds();
  }

  lemma SpacedWord3()
    ensures WordFits(Classifier(Shift_JIS), Cons([0x61], Cons([0x20], Nil)), Cons([0x62], Cons([0x20], Nil)))
  {
  }

  lemma SpacedWord4()
    ensures WordFits(Classifier(Shift_JIS), Cons([0x62], Cons([0x20], Nil)), Cons([0x2d], Cons([0x2d], Nil)))
  {
  }

  lemma SpacedWord5()
    ensures WordFits(Classifier(Shift_JIS), Cons([0x2d], Cons([0x2d], Nil)), Cons([0x0d], Cons([0x0a], Nil)))
  {
  }

  lemma SpacedWord6()
    ensures WordFits(Classifier(Shift_JIS), Cons([0x0d], Cons([0x0a], Nil)), Nil)
  {
  }

  lemma SpacedFit()
    ensures WordsRead(Classifier(Shift_JIS), SpacedWords)
  {
    SpacedWord0(); SpacedWord1(); SpacedWord2(); SpacedWord3(); SpacedWord4(); SpacedWord5(); SpacedWord6();
  }

  lemma SpacedBytes()
    ensures GroupBytes(SpacedWords) == SpacedText
  {
  }

  lemma SpacedKinds()
    ensures KindOf(Shift_JIS, [0x93, 0xfa]) == Kanji
    ensures KindOf(Shift_JIS, [0x96, 0x7b]) == Kanji
    ensures KindOf(Shift_JIS, [0x81, 0x40]) == WideBlank
    ensures KindOf(Shift_JIS, [0x8c, 0xea]) == Kanji
  {
  }

  lemma SpacedAnyWordTally()
    ensures WordCount(Classifier(Shift_JIS), AnyWord, SpacedWords) == 7
  {
    SpacedKinds();
  }

  /** test_sjis_count_word */
  lemma CountWordCase()
    ensures CountWordsOf(Shift_JIS, AnyWord, SpacedText) == 7
  {
    SpacedRead();
    SpacedFit();
    SpacedBytes();
    SpacedAnyWordTally();
    WordCountOfGroups(Shift_JIS, AnyWord, SpacedWords, SpacedText);
  }

  lemma SpacedJaWordTally()
    ensures WordCount(Classifier(Shift_JIS), JaWord, SpacedWords) == 3
  {
    SpacedKinds();
  }

  /** test_sjis_count_ja_word */
  lemma CountJaWordCase()
    ensures CountWordsOf(Shift_JIS, JaWord, SpacedText) == 3
  {
    SpacedRead();
    SpacedFit();
    SpacedBytes();
    SpacedJaWordTally();
    WordCountOfGroups(Shift_JIS, JaWord, SpacedWords, SpacedText);
  }

  lemma SpacedLatinValidWordTally()
    ensures WordCount(Classifier(Shift_JIS), LatinValidWord, SpacedWords) == 2
  {
    SpacedKinds();
  }

  /** test_sjis_count_latin_valid_word */
  lemma CountLatinValidWordCase()
    ensures CountWordsOf(Shift_JIS, LatinValidWord, SpacedText) == 2
  {
    SpacedRead();
    SpacedFit();
    SpacedBytes();
    SpacedLatinValidWordTally();
    WordCountOfGroups(Shift_JIS, LatinValidWord, SpacedWords, SpacedText);
  }

  lemma SpacedJaValidWordTally()
    ensures WordCount(Classifier(Shift_JIS), JaValidWord, SpacedWords) == 2
  {
    SpacedKinds();
  }

  /** test_sjis_count_ja_valid_word */
  lemma CountJaValidWordCase()
    ensures CountWordsOf(Shift_JIS, JaValidWord, SpacedText) == 2
  {
    SpacedRead();
    SpacedFit();
    SpacedBytes();
    SpacedJaValidWordTally();
    WordCountOfGroups(Shift_JIS, JaValidWord, SpacedWords, SpacedText);
  }

  /** test_sjis_count_valid_word */
  lemma CountValidWordCase()
    ensures CountWordsOf(Shift_JIS, ValidWord, SpacedText) == 4
  {
    CountLatinValidWordCase();
    CountJaValidWordCase();
    WordCounts(Shift_JIS, SpacedText);
  }

  /** "日本語\r\n　\r\n \r\n\r\nfoo\r\nbar" read with CRLF terminators, line by line. */
  const MixedText: Bytes := [0x93, 0xfa, 0x96, 0x7b, 0x8c, 0xea, 0x0d, 0x0a, 0x81, 0x40, 0x0d, 0x0a, 0x20, 0x0d, 0x0a, 0x0d, 0x0a, 0x66, 0x6f, 0x6f, 0x0d, 0x0a, 0x62, 0x61, 0x72]
  const MixedRows: Rows := RCons(Cons([0x93, 0xfa], Cons([0x96, 0x7b], Cons([0x8c, 0xea], Nil))), [0x0d, 0x0a], RCons(Cons([0x81, 0x40], Nil), [0x0d, 0x0a], RCons(Cons([0x20], Nil), [0x0d, 0x0a], RCons(Nil, [0x0d, 0x0a], RCons(Cons([0x66], Cons([0x6f], Cons([0x6f], Nil))), [0x0d, 0x0a], RCons(Cons([0x62], Cons([0x61], Cons([0x72], Nil))), [], RNil))))))

  lemma MixedRead()
    ensures RowsRead(Shift_JIS, CRLF, MixedRows)
  {
  }

  lemma MixedBytes()
    ensures RowBytes(MixedRows) == MixedText
  {
  }

  lemma MixedLine0()
    ensures RowKind(Shift_JIS, Cons([0x93, 0xfa], Cons([0x96, 0x7b], Cons([0x8c, 0xea], Nil)))) == GraphLine
  {
  }

  lemma MixedLine1()
    ensures RowKind(Shift_JIS, Cons([0x81, 0x40], Nil)) == BlankLine
  {
  }

  lemma MixedLine2()
    ensures RowKind(Shift_JIS, Cons([0x20], Nil)) == BlankLine
  {
  }

  lemma MixedLine3()
    ensures RowKind(Shift_JIS, Nil) == EmptyLine
  {
  }

  lemma MixedLine4()
    ensures RowKind(Shift_JIS, Cons([0x66], Cons([0x6f], Cons([0x6f], Nil)))) == GraphLine
  {
  }

  lemma MixedLine5()
    ensures RowKind(Shift_JIS, Cons([0x62], Cons([0x61], Cons([0x72], Nil)))) == GraphLine
  {
  }

  /** test_sjis_count_line */
  lemma CountLineCase()
    ensures CountLine(CRLF, MixedText) == 6
  {
    MixedRead(); MixedBytes();
    LineCountsOfRows(Shift_JIS, CRLF, EmptyLine, MixedRows, MixedText);
  }

  lemma MixedGraphLineTally()
    ensures RowCount(Shift_JIS, GraphLine, MixedRows) == 3
  {
    MixedLine0(); MixedLine1(); MixedLine2(); MixedLine3(); MixedLine4(); MixedLine5();
  }

  /** test_sjis_count_graph_line */
  lemma CountGraphLineCase()
    ensures CountLinesOf(Shift_JIS, CRLF, GraphLine, MixedText) == 3
  {
    MixedRead(); MixedBytes(); MixedGraphLineTally();
    LineCountsOfRows(Shift_JIS, CRLF, GraphLine, MixedRows, MixedText);
  }

  lemma MixedEmptyLineTally()
    ensures RowCount(Shift_JIS, EmptyLine, MixedRows) == 1
  {
    MixedLine0(); MixedLine1(); MixedLine2(); MixedLine3(); MixedLine4(); MixedLine5();
  }

  /** test_sjis_count_empty_line */
  lemma CountEmptyLineCase()
    ensures CountLinesOf(Shift_JIS, CRLF, EmptyLine, MixedText) == 1
  {
    MixedRead(); MixedBytes(); MixedEmptyLineTally();
    LineCountsOfRows(Shift_JIS, CRLF, EmptyLine, MixedRows, MixedText);
  }

  lemma MixedBlankLineTally()
    ensures RowCount(Shift_JIS, BlankLine, MixedRows) == 2
  {
    MixedLine0(); MixedLine1(); MixedLine2(); MixedLine3(); MixedLine4(); MixedLine5();
  }

  /** test_sjis_count_blank_line */
  lemma CountBlankLineCase()
    ensures CountLinesOf(Shift_JIS, CRLF, BlankLine, MixedText) == 2
  {
    MixedRead(); MixedBytes(); MixedBlankLineTally();
    LineCountsOfRows(Shift_JIS, CRLF, BlankLine, MixedRows, MixedText);
  }
}
