/** Support for stating concrete cases: token sequences written as cons
    lists, which the verifier unfolds cheaply when they are literals, and
    checkers over them whose success determines what `to_char`,
    `to_line`, `to_word`, `guess_eol` and `guess_codeset` return on their
    concatenation. */
module Literals {
  import opened ByteStrings
  import opened Tags
  import opened EncodingTable
  import opened Chars
  import opened Lines
  import opened Words
  import opened Counters
  import opened Detector

  /** A list of byte strings (lines, or the character tokens of a short run
      of text), written as a cons list. */
  datatype Tokens = Nil | Cons(head: Bytes, tail: Tokens)

  /** A list of runs of character tokens: the words of a text, or any
      other cut of its characters into short runs. */
  datatype Groups = GNil | GCons(group: Tokens, rest: Groups)

  /** The elements of `l`, in order. */
  function Seq(l: Tokens): seq<Bytes>
  {
    match l
    case Nil => []
    case Cons(h, t) => [h] + Seq(t)
  }

  /** The concatenation of the elements of `l`. */
  function Join(l: Tokens): Bytes
  {
    match l
    case Nil => []
    case Cons(h, t) => h + Join(t)
  }

  lemma {:induction false} JoinFlatten(l: Tokens)
    ensures Join(l) == Flatten(Seq(l))
  {
    match l
    case Nil =>
    case Cons(h, t) =>
      JoinFlatten(t);
      FlattenCons(h, Seq(t));
  }

  /** The groups of `l`, in order. */
  function GroupSeq(l: Groups): seq<seq<Bytes>>
  {
    match l
    case GNil => []
    case GCons(w, r) => [Seq(w)] + GroupSeq(r)
  }

  /** The character tokens of the groups of `l`, in order. */
  function GroupTokens(l: Groups): seq<Bytes>
  {
    match l
    case GNil => []
    case GCons(w, r) => Seq(w) + GroupTokens(r)
  }

  /** The bytes of the groups of `l`, in order. */
  function GroupBytes(l: Groups): Bytes
  {
    match l
    case GNil => []
    case GCons(w, r) => Join(w) + GroupBytes(r)
  }

  /** Each group of `l` as its bytes. */
  function GroupFlats(l: Groups): seq<Bytes>
  {
    match l
    case GNil => []
    case GCons(w, r) => [Join(w)] + GroupFlats(r)
  }

  lemma {:induction false} GroupBytesFlatten(l: Groups)
    ensures GroupBytes(l) == Flatten(GroupTokens(l))
  {
    match l
    case GNil =>
    case GCons(w, r) =>
      GroupBytesFlatten(r);
      JoinFlatten(w);
      FlattenAppend(Seq(w), GroupTokens(r));
  }

  // ---------------------------------------------------------------------
  // Characters

  /** Every element of `l` is a character token that reads alone. */
  predicate Alone(enc: Encoding, eol: LineEnding, l: Tokens)
  {
    match l
    case Nil => true
    case Cons(t, r) => ReadsAlone(enc, eol, t) && Alone(enc, eol, r)
  }

  lemma {:induction false} AloneAll(enc: Encoding, eol: LineEnding, l: Tokens)
    requires Alone(enc, eol, l)
    ensures AllReadAlone(enc, eol, Seq(l))
  {
    match l
    case Nil =>
    case Cons(t, r) =>
      AloneAll(enc, eol, r);
      assert Seq(l)[0] == t && Seq(l)[1..] == Seq(r);
  }

  /** Every token of every group of `l` reads alone. */
  predicate CharsRead(enc: Encoding, eol: LineEnding, l: Groups)
  {
    match l
    case GNil => true
    case GCons(w, r) => Alone(enc, eol, w) && CharsRead(enc, eol, r)
  }

  lemma {:induction false} ReadChars(enc: Encoding, eol: LineEnding, l: Groups)
    requires CharsRead(enc, eol, l)
    ensures ToChar(enc, eol, GroupBytes(l)) == GroupTokens(l)
  {
    match l
    case GNil =>
    case GCons(w, r) =>
      ReadChars(enc, eol, r);
      AloneAll(enc, eol, w);
      JoinFlatten(w);
      ToCharOfChars(enc, eol, Seq(w), GroupBytes(r));
  }

  // ---------------------------------------------------------------------
  // Lines

  /** `LineChecked` on the part of `t` from index `i`, one index at a
      time; on a literal `t` the verifier evaluates it directly. */
  predicate LineCheckedFrom(eol: LineEnding, t: Bytes, i: nat, last: bool)
    decreases |t| - i
  {
    if i >= |t| then false
    else if TermAt(eol, t, i) then i + |Terminator(eol)| == |t|
    else if i + 1 == |t| then last
    else LineCheckedFrom(eol, t, i + 1, last)
  }

  lemma {:induction false} LineCheckedFromSuffix(eol: LineEnding, t: Bytes, i: nat, last: bool)
    requires i <= |t|
    ensures LineCheckedFrom(eol, t, i, last) == LineChecked(eol, t[i..], last)
    decreases |t| - i
  {
    if i < |t| {
      var u := t[i..];
      assert TermAt(eol, t, i) == TermAt(eol, u, 0);
      if i + 1 < |t| {
        LineCheckedFromSuffix(eol, t, i + 1, last);
        assert u[1..] == t[i + 1..];
      }
    }
  }

  /** Every element of `l` is a line, the last one as the last. */
  predicate LinesRead(eol: LineEnding, l: Tokens)
  {
    match l
    case Nil => true
    case Cons(t, r) => LineCheckedFrom(eol, t, 0, r.Nil?) && LinesRead(eol, r)
  }

  lemma {:induction false} ReadLines(eol: LineEnding, l: Tokens)
    requires LinesRead(eol, l)
    ensures ToLine(eol, Join(l)) == Seq(l)
  {
    match l
    case Nil =>
    case Cons(t, r) =>
      ReadLines(eol, r);
      LineCheckedFromSuffix(eol, t, 0, r.Nil?);
      assert t[0..] == t;
      LineCheckedIsLine(eol, t, r.Nil?);
      var s := t + Join(r);
      LineEndOfLine(eol, t, Join(r), r.Nil?);
      assert s[..|t|] == t && s[|t|..] == Join(r);
  }

  // ---------------------------------------------------------------------
  // Words

  /** `Accepts` over a list of character tokens. */
  function AcceptsList(kind: Bytes -> Kind, a: Run, p: Phase, l: Tokens): Option<Phase>
    decreases l
  {
    match l
    case Nil => Some(p)
    case Cons(c, r) =>
      match Step(a, p, kind(c))
      case None => None
      case Some(q) => AcceptsList(kind, a, q, r)
  }

  lemma {:induction false} AcceptsOfList(kind: Bytes -> Kind, a: Run, p: Phase, l: Tokens)
    ensures AcceptsList(kind, a, p, l) == Accepts(kind, a, p, Seq(l))
    decreases l
  {
    match l
    case Nil =>
    case Cons(c, r) =>
      AcceptsOfList(kind, a, Main, r);
      AcceptsOfList(kind, a, Tail, r);
      assert Seq(l)[0] == c && Seq(l)[1..] == Seq(r);
  }

  /** `w` is a word the automaton accepts, and the first character of
      `next`, if any, cannot extend it. */
  predicate WordFits(kind: Bytes -> Kind, w: Tokens, next: Tokens)
  {
    && w.Cons?
    && AcceptsList(kind, Anchor(kind, w.head), Main, w.tail).Some?
    && (next.Cons? ==>
         Step(Anchor(kind, w.head), AcceptsList(kind, Anchor(kind, w.head), Main, w.tail).value,
              kind(next.head)).None?)
  }

  /** Every group of `l` is a word that the next one cannot extend. */
  predicate WordsRead(kind: Bytes -> Kind, l: Groups)
  {
    match l
    case GNil => true
    case GCons(w, r) => WordFits(kind, w, if r.GCons? then r.group else Nil) && WordsRead(kind, r)
  }

  lemma {:induction false} ReadWords(kind: Bytes -> Kind, l: Groups)
    requires WordsRead(kind, l)
    ensures WordsOf(kind, GroupTokens(l)) == GroupSeq(l)
  {
    match l
    case GNil =>
    case GCons(g, r) =>
      ReadWords(kind, r);
      var w, rest := Seq(g), GroupTokens(r);
      var a := Anchor(kind, g.head);
      AcceptsOfList(kind, a, Main, g.tail);
      assert w[0] == g.head && w[1..] == Seq(g.tail);
      ShapeIffAccepted(kind, w);
      if r.GCons? {
        var n := r.group;
        assert n.Cons? by { assert WordFits(kind, n, if r.rest.GCons? then r.rest.group else Nil); }
        var c := n.head;
        assert rest[0] == c;
        AcceptsSnoc(kind, a, Main, w[1..], c);
        assert (w + [c])[1..] == w[1..] + [c];
        ShapeIffAccepted(kind, w + [c]);
      }
      FirstWordOf(kind, w, rest);
      var s := w + rest;
      assert s[..|w|] == w && s[|w|..] == rest;
  }

  lemma {:induction false} JoinEachGroups(l: Groups)
    ensures JoinEach(GroupSeq(l)) == GroupFlats(l)
  {
    match l
    case GNil =>
    case GCons(w, r) =>
      JoinEachGroups(r);
      JoinFlatten(w);
      JoinEachCons(Seq(w), GroupSeq(r));
  }

  /** `to_word` of a text cut into groups that are its characters and, at
      the same time, its words. */
  lemma ReadWordText(enc: Encoding, l: Groups)
    requires CharsRead(enc, NONE, l) && WordsRead(Classifier(enc), l)
    ensures WordChars(enc, GroupBytes(l)) == GroupSeq(l)
    ensures ToWord(enc, GroupBytes(l)) == GroupFlats(l)
  {
    ReadChars(enc, NONE, l);
    ReadWords(Classifier(enc), l);
    JoinEachGroups(l);
  }

  // ---------------------------------------------------------------------
  // Counting

  /** Number of the tokens of `l` whose class is `c`. */
  function TokensOfClass(kind: Bytes -> Kind, l: Tokens, c: CharClass): nat
  {
    match l
    case Nil => 0
    case Cons(t, r) => (if ClassOf(kind(t)) == c then 1 else 0) + TokensOfClass(kind, r, c)
  }

  lemma {:induction false} CountClassTokens(kind: Bytes -> Kind, l: Tokens, c: CharClass)
    ensures CountClass(kind, Seq(l), c) == TokensOfClass(kind, l, c)
  {
    match l
    case Nil =>
    case Cons(t, r) =>
      CountClassTokens(kind, r, c);
      assert Seq(l)[0] == t && Seq(l)[1..] == Seq(r);
  }

  /** Number of the printable tokens of `l`. */
  function GraphTokens(kind: Bytes -> Kind, l: Tokens): nat
  {
    match l
    case Nil => 0
    case Cons(t, r) => (if IsGraphClass(ClassOf(kind(t))) then 1 else 0) + GraphTokens(kind, r)
  }

  lemma {:induction false} CountGraphTokens(kind: Bytes -> Kind, l: Tokens)
    ensures CountGraph(kind, Seq(l)) == GraphTokens(kind, l)
  {
    match l
    case Nil =>
    case Cons(t, r) =>
      CountGraphTokens(kind, r);
      assert Seq(l)[0] == t && Seq(l)[1..] == Seq(r);
  }

  /** Number of characters of class `c` in the groups of `l`. */
  function ClassCount(kind: Bytes -> Kind, l: Groups, c: CharClass): nat
  {
    match l
    case GNil => 0
    case GCons(w, r) => TokensOfClass(kind, w, c) + ClassCount(kind, r, c)
  }

  lemma {:induction false} CountClassGroups(kind: Bytes -> Kind, l: Groups, c: CharClass)
    ensures CountClass(kind, GroupTokens(l), c) == ClassCount(kind, l, c)
  {
    match l
    case GNil =>
    case GCons(w, r) =>
      CountClassGroups(kind, r, c);
      CountClassTokens(kind, w, c);
      CountClassAppend(kind, Seq(w), GroupTokens(r), c);
  }

  /** The characters of class `c` in a text cut into groups of its characters. */
  lemma ClassCountOfGroups(enc: Encoding, eol: LineEnding, l: Groups, s: Bytes, c: CharClass)
    requires CharsRead(enc, eol, l) && GroupBytes(l) == s
    ensures CountClass(Classifier(enc), ToChar(enc, eol, s), c) == ClassCount(Classifier(enc), l, c)
  {
    ReadChars(enc, eol, l);
    CountClassGroups(Classifier(enc), l, c);
  }

  /** `count_char` of a text cut into groups of its characters. */
  lemma CharCountOfGroups(enc: Encoding, eol: LineEnding, l: Groups, s: Bytes)
    requires CharsRead(enc, eol, l) && GroupBytes(l) == s
    ensures CountChar(enc, eol, s) == |GroupTokens(l)|
  {
    ReadChars(enc, eol, l);
  }

  /** Some token of `l` passes the test `t`. */
  predicate AnyToken(kind: Bytes -> Kind, t: CharTest, l: Tokens)
  {
    match l
    case Nil => false
    case Cons(c, r) => Meets(t, kind(c)) || AnyToken(kind, t, r)
  }

  lemma {:induction false} AnyOfTokens(kind: Bytes -> Kind, t: CharTest, l: Tokens)
    ensures AnyToken(kind, t, l) == Any(kind, t, Seq(l))
  {
    match l
    case Nil =>
    case Cons(c, r) =>
      AnyOfTokens(kind, t, r);
      assert Seq(l)[0] == c && Seq(l)[1..] == Seq(r);
  }

  /** The word filter `f` on a word written as a list of tokens. */
  predicate PassesTokens(kind: Bytes -> Kind, f: WordFilter, l: Tokens)
  {
    var ja := l.Cons? && kind(l.head).IsJapanese();
    match f
    case AnyWord => true
    case LatinWord => AnyToken(kind, LatinChar, l)
    case JaWord => ja
    case LatinValidWord => AnyToken(kind, AlnumChar, l)
    case JaValidWord => ja && AnyToken(kind, ScriptChar, l)
    case ValidWord => AnyToken(kind, AlnumChar, l) || (ja && AnyToken(kind, ScriptChar, l))
  }

  lemma PassesOfTokens(kind: Bytes -> Kind, f: WordFilter, l: Tokens)
    ensures PassesTokens(kind, f, l) == Passes(kind, f, Seq(l))
  {
    AnyOfTokens(kind, LatinChar, l);
    AnyOfTokens(kind, AlnumChar, l);
    AnyOfTokens(kind, ScriptChar, l);
    if l.Cons? {
      assert Seq(l)[0] == l.head;
    }
  }

  /** Number of groups of `l` that pass the word filter `f`. */
  function WordCount(kind: Bytes -> Kind, f: WordFilter, l: Groups): nat
  {
    match l
    case GNil => 0
    case GCons(w, r) => (if PassesTokens(kind, f, w) then 1 else 0) + WordCount(kind, f, r)
  }

  lemma {:induction false} CountWordsGroups(kind: Bytes -> Kind, f: WordFilter, l: Groups)
    ensures CountWords(kind, f, GroupSeq(l)) == WordCount(kind, f, l)
  {
    match l
    case GNil =>
    case GCons(w, r) =>
      CountWordsGroups(kind, f, r);
      PassesOfTokens(kind, f, w);
      CountWordsAppend(kind, f, [Seq(w)], GroupSeq(r));
  }

  /** The words passing the filter `f` in a text cut into its words. */
  lemma WordCountOfGroups(enc: Encoding, f: WordFilter, l: Groups, s: Bytes)
    requires CharsRead(enc, NONE, l) && WordsRead(Classifier(enc), l) && GroupBytes(l) == s
    ensures CountWordsOf(enc, f, s) == WordCount(Classifier(enc), f, l)
  {
    ReadWordText(enc, l);
    CountWordsGroups(Classifier(enc), f, l);
  }

  // ---------------------------------------------------------------------
  // Lines given by their content

  /** Lines given by their content, as character tokens, and their
      terminator. */
  datatype Rows = RNil | RCons(content: Tokens, term: Bytes, rest: Rows)

  /** The lines of `l`, in order. */
  function RowLines(l: Rows): seq<Bytes>
  {
    match l
    case RNil => []
    case RCons(c, t, r) => [Join(c) + t] + RowLines(r)
  }

  /** The text of `l`. */
  function RowBytes(l: Rows): Bytes
  {
    match l
    case RNil => []
    case RCons(c, t, r) => Join(c) + t + RowBytes(r)
  }

  /** No token of `l` holds a CR or an LF byte. */
  predicate NoBreaks(l: Tokens)
  {
    match l
    case Nil => true
    case Cons(t, r) => CrByte !in t && LfByte !in t && NoBreaks(r)
  }

  /** Every row of `l` has characters that read alone and hold no line
      break, and ends with the terminator; only the last row may instead
      end without one, and is then not empty. */
  predicate RowsRead(enc: Encoding, eol: LineEnding, l: Rows)
  {
    match l
    case RNil => true
    case RCons(c, t, r) =>
      && Alone(enc, eol, c)
      && NoBreaks(c)
      && ((eol != NONE && t == Terminator(eol)) || (r.RNil? && t == [] && c.Cons?))
      && RowsRead(enc, eol, r)
  }

  /** The kind of a line whose content is the characters `c`. */
  function RowKind(enc: Encoding, c: Tokens): LineKind
  {
    if c.Nil? then EmptyLine
    else if GraphTokens(Classifier(enc), c) > 0 then GraphLine
    else BlankLine
  }

  /** Number of rows of `l` of kind `k`. */
  function RowCount(enc: Encoding, k: LineKind, l: Rows): nat
  {
    match l
    case RNil => 0
    case RCons(c, _, r) => (if RowKind(enc, c) == k then 1 else 0) + RowCount(enc, k, r)
  }

  lemma {:induction false} NoBreaksJoin(l: Tokens)
    requires NoBreaks(l)
    ensures CrByte !in Join(l) && LfByte !in Join(l)
  {
    match l
    case Nil =>
    case Cons(t, r) =>
      NoBreaksJoin(r);
  }

  /** A text without CR or LF bytes holds no terminator. */
  lemma NoBreakNoTerm(eol: LineEnding, c: Bytes)
    requires CrByte !in c && LfByte !in c
    ensures NoTerm(eol, c)
  {
    forall i | 0 <= i < |c| ensures !TermAt(eol, c, i) {
      assert c[i] in c;
    }
  }

  /** A row is a line. */
  lemma RowIsLine(eol: LineEnding, c: Bytes, t: Bytes, last: bool)
    requires CrByte !in c && LfByte !in c
    requires (eol != NONE && t == Terminator(eol)) || (last && t == [] && c != [])
    ensures IsLine(eol, c + t, last)
    ensures Content(eol, c + t) == c
  {
    var line := c + t;
    NoBreakNoTerm(eol, c);
    if t == [] {
      assert line == c;
    } else {
      var n := |t|;
      assert line[|c|] == t[0];
      if eol == CRLF {
        assert line[|c| + 1] == t[1];
      }
      assert TermAt(eol, line, |c|);
      assert EndsWithTerm(eol, line);
      var p := line[..|line| - 1];
      forall i | 0 <= i < |p| ensures !TermAt(eol, p, i) {
        if i < |c| {
          assert p[i] == c[i];
          assert !TermAt(eol, c, i);
          assert c[i] in c;
        }
      }
      assert line[..|line| - n] == c;
    }
  }

  lemma {:induction false} ReadRows(enc: Encoding, eol: LineEnding, l: Rows)
    requires RowsRead(enc, eol, l)
    ensures ToLine(eol, RowBytes(l)) == RowLines(l)
  {
    match l
    case RNil =>
    case RCons(c, t, r) =>
      ReadRows(enc, eol, r);
      NoBreaksJoin(c);
      var line := Join(c) + t;
      JoinNotEmpty(enc, eol, c);
      RowIsLine(eol, Join(c), t, r.RNil?);
      var s := line + RowBytes(r);
      LineEndOfLine(eol, line, RowBytes(r), r.RNil?);
      assert s[..|line|] == line && s[|line|..] == RowBytes(r);
  }

  /** Characters that read alone are read back from their concatenation. */
  lemma ToCharOfJoin(enc: Encoding, eol: LineEnding, c: Tokens)
    requires Alone(enc, eol, c)
    ensures ToChar(enc, eol, Join(c)) == Seq(c)
  {
    AloneAll(enc, eol, c);
    JoinFlatten(c);
    ToCharOfChars(enc, eol, Seq(c), []);
    assert Flatten(Seq(c)) + [] == Flatten(Seq(c));
  }

  /** A row's content is not empty exactly when it has a character. */
  lemma JoinNotEmpty(enc: Encoding, eol: LineEnding, c: Tokens)
    requires Alone(enc, eol, c)
    ensures c.Cons? <==> Join(c) != []
  {
    if c.Cons? {
      assert ReadsAlone(enc, eol, c.head);
    }
  }

  /** The kind of a row's line is the kind of its content. */
  lemma RowKindOfLine(enc: Encoding, eol: LineEnding, c: Tokens, t: Bytes, last: bool)
    requires Alone(enc, eol, c) && NoBreaks(c)
    requires (eol != NONE && t == Terminator(eol)) || (last && t == [] && c.Cons?)
    ensures KindOfLine(enc, eol, Join(c) + t) == RowKind(enc, c)
  {
    NoBreaksJoin(c);
    JoinNotEmpty(enc, eol, c);
    RowIsLine(eol, Join(c), t, last);
    ToCharOfJoin(enc, eol, c);
    CountGraphTokens(Classifier(enc), c);
  }

  lemma {:induction false} CountRows(enc: Encoding, eol: LineEnding, k: LineKind, l: Rows)
    requires RowsRead(enc, eol, l)
    ensures CountLines(enc, eol, k, RowLines(l)) == RowCount(enc, k, l)
  {
    match l
    case RNil =>
    case RCons(c, t, r) =>
      CountRows(enc, eol, k, r);
      RowKindOfLine(enc, eol, c, t, r.RNil?);
      CountLinesAppend(enc, eol, k, [Join(c) + t], RowLines(r));
  }

  /** The line counters of a text given as rows. */
  lemma LineCountsOfRows(enc: Encoding, eol: LineEnding, k: LineKind, l: Rows, s: Bytes)
    requires RowsRead(enc, eol, l) && RowBytes(l) == s
    ensures CountLine(eol, s) == |RowLines(l)|
    ensures CountLinesOf(enc, eol, k, s) == RowCount(enc, k, l)
  {
    ReadRows(enc, eol, l);
    CountRows(enc, eol, k, l);
  }

  // ---------------------------------------------------------------------
  // Texts cut at their terminators

  /** A piece of a text: one terminator, or a non-empty run without CR
      and LF bytes. */
  predicate Piece(t: Bytes)
  {
    t == [CrByte, LfByte] || t == [CrByte] || t == [LfByte] || (t != [] && CrByte !in t && LfByte !in t)
  }

  /** The terminator a piece stands for, if any. */
  function PieceEol(t: Bytes): set<Eol>
  {
    if t == [CrByte, LfByte] then {CRLF}
    else if t == [CrByte] then {CR}
    else if t == [LfByte] then {LF}
    else {}
  }

  /** Every element of `l` is a piece, and no lone CR piece is followed by
      a lone LF piece (the two would read as one pair). */
  predicate PiecesRead(l: Tokens)
  {
    match l
    case Nil => true
    case Cons(t, r) => Piece(t) && !(t == [CrByte] && r.Cons? && r.head == [LfByte]) && PiecesRead(r)
  }

  /** The terminators the pieces of `l` stand for. */
  function PieceEols(l: Tokens): set<Eol>
  {
    match l
    case Nil => {}
    case Cons(t, r) => PieceEol(t) + PieceEols(r)
  }

  lemma {:induction false} TerminatorsOfPieces(l: Tokens)
    requires PiecesRead(l)
    ensures Terminators(Join(l)) == PieceEols(l)
    ensures l.Cons? ==> Join(l) != [] && Join(l)[0] == l.head[0]
  {
    match l
    case Nil =>
    case Cons(t, r) =>
      TerminatorsOfPieces(r);
      if t == [CrByte, LfByte] || t == [CrByte] || t == [LfByte] {
      } else {
        NoBreakTerminators(t);
        assert t[|t| - 1] in t;
      }
      TerminatorsAppend(t, Join(r));
  }

  /** A text given as its pieces is guessed as the one terminator they
      hold, NONE for none, UNKNOWN for several. */
  lemma GuessEolOfPieces(l: Tokens, s: Bytes)
    requires PiecesRead(l) && Join(l) == s
    ensures PieceEols(l) == {} ==> GuessEolOf(s) == NONE
    ensures PieceEols(l) == {CR} ==> GuessEolOf(s) == CR
    ensures PieceEols(l) == {LF} ==> GuessEolOf(s) == LF
    ensures PieceEols(l) == {CRLF} ==> GuessEolOf(s) == CRLF
    ensures Mixed(PieceEols(l)) ==> GuessEolOf(s) == Eol.UNKNOWN
  {
    TerminatorsOfPieces(l);
  }

  // ---------------------------------------------------------------------
  // Valid text

  /** Characters that read alone make valid text. */
  lemma {:induction false} ValidOfTokens(enc: Encoding, l: Tokens)
    requires Alone(enc, NONE, l)
    ensures Valid(enc, Join(l))
  {
    match l
    case Nil =>
    case Cons(t, r) =>
      ValidOfTokens(enc, r);
      ValidCons(enc, t, Join(r));
  }

  /** Characters of `enc` that read alone make text guessed as `enc`,
      when it has no JIS escape, is seven-bit exactly when `enc` is ASCII,
      and is not valid in a candidate tried before `enc`. */
  lemma GuessCodesetOfTokens(enc: Encoding, l: Tokens, s: Bytes)
    requires Alone(enc, NONE, l) && Join(l) == s
    requires 0x1B !in s
    requires enc != ASCII ==> !AllAscii(s)
    requires enc == EUC_JP || enc == Shift_JIS ==> !Valid(UTF8, s)
    requires enc == Shift_JIS ==> !Valid(EUC_JP, s)
    ensures GuessCodesetOf(s) == enc
  {
    ValidOfTokens(enc, l);
    NoEscapeNoJis(s);
    AsciiValid(ASCII, s);
  }
}
