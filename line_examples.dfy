/** The `to_line` cases of the test suite, for each line ending. */
module LineExamples {
  import opened ByteStrings
  import opened Tags
  import opened Lines
  import opened Literals

  /** "foo\rbar\r" with CR terminators. */
  const CrLineText: Bytes := [0x66, 0x6f, 0x6f, 0x0d, 0x62, 0x61, 0x72, 0x0d]
  const CrLineLines: Tokens := Cons([0x66, 0x6f, 0x6f, 0x0d], Cons([0x62, 0x61, 0x72, 0x0d], Nil))

  lemma CrLineRead()
    ensures LinesRead(CR, CrLineLines) && Join(CrLineLines) == CrLineText
  {
  }

  /** test_cr_to_line */
  lemma CrToLineCase()
    ensures ToLine(CR, CrLineText) == [[0x66, 0x6f, 0x6f, 0x0d], [0x62, 0x61, 0x72, 0x0d]]
  {
    CrLineRead();
    ReadLines(CR, CrLineLines);
  }

  /** "foo\rbar" with CR terminators. */
  const CrLineChompedLastlineText: Bytes := [0x66, 0x6f, 0x6f, 0x0d, 0x62, 0x61, 0x72]
  const CrLineChompedLastlineLines: Tokens := Cons([0x66, 0x6f, 0x6f, 0x0d], Cons([0x62, 0x61, 0x72], Nil))

  lemma CrLineChompedLastlineRead()
    ensures LinesRead(CR, CrLineChompedLastlineLines) && Join(CrLineChompedLastlineLines) == CrLineChompedLastlineText
  {
  }

  /** test_cr_to_line_chomped_lastline */
  lemma CrToLineChompedLastlineCase()
    ensures ToLine(CR, CrLineChompedLastlineText) == [[0x66, 0x6f, 0x6f, 0x0d], [0x62, 0x61, 0x72]]
  {
    CrLineChompedLastlineRead();
    ReadLines(CR, CrLineChompedLastlineLines);
  }

  /** "foo\r\rbar\r" with CR terminators. */
  const CrLineEmptyLineText: Bytes := [0x66, 0x6f, 0x6f, 0x0d, 0x0d, 0x62, 0x61, 0x72, 0x0d]
  const CrLineEmptyLineLines: Tokens := Cons([0x66, 0x6f, 0x6f, 0x0d], Cons([0x0d], Cons([0x62, 0x61, 0x72, 0x0d], Nil)))

  lemma CrLineEmptyLineRead()
    ensures LinesRead(CR, CrLineEmptyLineLines) && Join(CrLineEmptyLineLines) == CrLineEmptyLineText
  {
  }

  /** test_cr_to_line_empty_line */
  lemma CrToLineEmptyLineCase()
    ensures ToLine(CR, CrLineEmptyLineText) == [[0x66, 0x6f, 0x6f, 0x0d], [0x0d], [0x62, 0x61, 0x72, 0x0d]]
  {
    CrLineEmptyLineRead();
    ReadLines(CR, CrLineEmptyLineLines);
  }

  /** "foo\nbar\n" with LF terminators. */
  const LfLineText: Bytes := [0x66, 0x6f, 0x6f, 0x0a, 0x62, 0x61, 0x72, 0x0a]
  const LfLineLines: Tokens := Cons([0x66, 0x6f, 0x6f, 0x0a], Cons([0x62, 0x61, 0x72, 0x0a], Nil))

  lemma LfLineRead()
    ensures LinesRead(LF, LfLineLines) && Join(LfLineLines) == LfLineText
  {
  }

  /** test_lf_to_line */
  lemma LfToLineCase()
    ensures ToLine(LF, LfLineText) == [[0x66, 0x6f, 0x6f, 0x0a], [0x62, 0x61, 0x72, 0x0a]]
  {
    LfLineRead();
    ReadLines(LF, LfLineLines);
  }

  /** "foo\nbar" with LF terminators. */
  const LfLineChompedLastlineText: Bytes := [0x66, 0x6f, 0x6f, 0x0a, 0x62, 0x61, 0x72]
  const LfLineChompedLastlineLines: Tokens := Cons([0x66, 0x6f, 0x6f, 0x0a], Cons([0x62, 0x61, 0x72], Nil))

  lemma LfLineChompedLastlineRead()
    ensures LinesRead(LF, LfLineChompedLastlineLines) && Join(LfLineChompedLastlineLines) == LfLineChompedLastlineText
  {
  }

  /** test_lf_to_line_chomped_lastline */
  lemma LfToLineChompedLastlineCase()
    ensures ToLine(LF, LfLineChompedLastlineText) == [[0x66, 0x6f, 0x6f, 0x0a], [0x62, 0x61, 0x72]]
  {
    LfLineChompedLastlineRead();
    ReadLines(LF, LfLineChompedLastlineLines);
  }

  /** "foo\n\nbar\n" with LF terminators. */
  const LfLineEmptyLineText: Bytes := [0x66, 0x6f, 0x6f, 0x0a, 0x0a, 0x62, 0x61, 0x72, 0x0a]
  const LfLineEmptyLineLines: Tokens := Cons([0x66, 0x6f, 0x6f, 0x0a], Cons([0x0a], Cons([0x62, 0x61, 0x72, 0x0a], Nil)))

  lemma LfLineEmptyLineRead()
    ensures LinesRead(LF, LfLineEmptyLineLines) && Join(LfLineEmptyLineLines) == LfLineEmptyLineText
  {
  }

  /** test_lf_to_line_empty_line */
  lemma LfToLineEmptyLineCase()
    ensures ToLine(LF, LfLineEmptyLineText) == [[0x66, 0x6f, 0x6f, 0x0a], [0x0a], [0x62, 0x61, 0x72, 0x0a]]
  {
    LfLineEmptyLineRead();
    ReadLines(LF, LfLineEmptyLineLines);
  }

  /** "foo\r\nbar\r\n" with CRLF terminators. */
  const CrlfLineText: Bytes := [0x66, 0x6f, 0x6f, 0x0d, 0x0a, 0x62, 0x61, 0x72, 0x0d, 0x0a]
  const CrlfLineLines: Tokens := Cons([0x66, 0x6f, 0x6f, 0x0d, 0x0a], Cons([0x62, 0x61, 0x72, 0x0d, 0x0a], Nil))

  lemma CrlfLineRead()
    ensures LinesRead(CRLF, CrlfLineLines) && Join(CrlfLineLines) == CrlfLineText
  {
  }

  /** test_crlf_to_line */
  lemma CrlfToLineCase()
    ensures ToLine(CRLF, CrlfLineText) == [[0x66, 0x6f, 0x6f, 0x0d, 0x0a], [0x62, 0x61, 0x72, 0x0d, 0x0a]]
  {
    CrlfLineRead();
    ReadLines(CRLF, CrlfLineLines);
  }

  /** "foo\r\nbar" with CRLF terminators. */
  const CrlfLineChompedLastlineText: Bytes := [0x66, 0x6f, 0x6f, 0x0d, 0x0a, 0x62, 0x61, 0x72]
  const CrlfLineChompedLastlineLines: Tokens := Cons([0x66, 0x6f, 0x6f, 0x0d, 0x0a], Cons([0x62, 0x61, 0x72], Nil))

  lemma CrlfLineChompedLastlineRead()
    ensures LinesRead(CRLF, CrlfLineChompedLastlineLines) && Join(CrlfLineChompedLastlineLines) == CrlfLineChompedLastlineText
  {
  }

  /** test_crlf_to_line_chomped_lastline */
  lemma CrlfToLineChompedLastlineCase()
    ensures ToLine(CRLF, CrlfLineChompedLastlineText) == [[0x66, 0x6f, 0x6f, 0x0d, 0x0a], [0x62, 0x61, 0x72]]
  {
    CrlfLineChompedLastlineRead();
    ReadLines(CRLF, CrlfLineChompedLastlineLines);
  }

  /** "foo\r\n\r\nbar\r\n" with CRLF terminators. */
  const CrlfLineEmptyLineText: Bytes := [0x66, 0x6f, 0x6f, 0x0d, 0x0a, 0x0d, 0x0a, 0x62, 0x61, 0x72, 0x0d, 0x0a]
  const CrlfLineEmptyLineLines: Tokens := Cons([0x66, 0x6f, 0x6f, 0x0d, 0x0a], Cons([0x0d, 0x0a], Cons([0x62, 0x61, 0x72, 0x0d, 0x0a], Nil)))

  lemma CrlfLineEmptyLineRead()
    ensures LinesRead(CRLF, CrlfLineEmptyLineLines) && Join(CrlfLineEmptyLineLines) == CrlfLineEmptyLineText
  {
  }

  /** test_crlf_to_line_empty_line */
  lemma CrlfToLineEmptyLineCase()
    ensures ToLine(CRLF, CrlfLineEmptyLineText) == [[0x66, 0x6f, 0x6f, 0x0d, 0x0a], [0x0d, 0x0a], [0x62, 0x61, 0x72, 0x0d, 0x0a]]
  {
    CrlfLineEmptyLineRead();
    ReadLines(CRLF, CrlfLineEmptyLineLines);
  }
}
