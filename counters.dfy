/** The `count_*` counters: bytes, characters by class, words by kind and
    validity, and lines by kind. */
module Counters {
  import opened ByteStrings
  import opened Tags
  import opened EncodingTable
  import opened Chars
  import opened Lines
  import opened Words

  // ---------------------------------------------------------------------
  // Bytes and characters

  /** `count_byte`. */
  function CountByte(s: Bytes): (n: nat)
    ensures n == |s|
  {
    ToByteTiles(s);
    |ToByte(s)|
  }

  /** `count_char`: never more than the bytes, and one per byte for ASCII
      text read without CRLF pairing. */
  function CountChar(enc: Encoding, eol: LineEnding, s: Bytes): (n: nat)
    ensures n <= |s|
    ensures enc == ASCII && eol != CRLF ==> n == |s|
  {
    ToCharCount(enc, eol, s);
    ToByteTiles(s);
    |ToChar(enc, eol, s)|
  }

  /** Number of the characters `cs` whose class is `c`. */
  function CountClass(kind: Bytes -> Kind, cs: seq<Bytes>, c: CharClass): (n: nat)
    ensures n <= |cs|
  {
    if cs == [] then 0
    else (if ClassOf(kind(cs[0])) == c then 1 else 0) + CountClass(kind, cs[1..], c)
  }

  /** Number of printable characters, Latin or Japanese. */
  function CountGraph(kind: Bytes -> Kind, cs: seq<Bytes>): (n: nat)
    ensures n <= |cs|
  {
    if cs == [] then 0
    else (if IsGraphClass(ClassOf(kind(cs[0]))) then 1 else 0) + CountGraph(kind, cs[1..])
  }

  /** Number of blank characters, Latin or Japanese. */
  function CountBlank(kind: Bytes -> Kind, cs: seq<Bytes>): (n: nat)
    ensures n <= |cs|
  {
    if cs == [] then 0
    else (if IsBlankClass(ClassOf(kind(cs[0]))) then 1 else 0) + CountBlank(kind, cs[1..])
  }

  /** `count_latin_graph_char`. */
  function CountLatinGraphChar(enc: Encoding, eol: LineEnding, s: Bytes): nat
  {
    CountClass(Classifier(enc), ToChar(enc, eol, s), LatinGraph)
  }

  /** `count_ja_graph_char`. */
  function CountJaGraphChar(enc: Encoding, eol: LineEnding, s: Bytes): nat
  {
    CountClass(Classifier(enc), ToChar(enc, eol, s), JaGraph)
  }

  /** `count_graph_char`. */
  function CountGraphChar(enc: Encoding, eol: LineEnding, s: Bytes): nat
  {
    CountGraph(Classifier(enc), ToChar(enc, eol, s))
  }

  /** `count_latin_blank_char`. */
  function CountLatinBlankChar(enc: Encoding, eol: LineEnding, s: Bytes): nat
  {
    CountClass(Classifier(enc), ToChar(enc, eol, s), LatinBlank)
  }

  /** `count_ja_blank_char`. */
  function CountJaBlankChar(enc: Encoding, eol: LineEnding, s: Bytes): nat
  {
    CountClass(Classifier(enc), ToChar(enc, eol, s), JaBlank)
  }

  /** `count_blank_char`. */
  function CountBlankChar(enc: Encoding, eol: LineEnding, s: Bytes): nat
  {
    CountBlank(Classifier(enc), ToChar(enc, eol, s))
  }

  /** Graph characters are the Latin and the Japanese ones, blank characters
      likewise, and graph, blank and control characters make up all. */
  lemma {:induction false} ClassCountsPartition(kind: Bytes -> Kind, cs: seq<Bytes>)
    ensures CountGraph(kind, cs) == CountClass(kind, cs, LatinGraph) + CountClass(kind, cs, JaGraph)
    ensures CountBlank(kind, cs) == CountClass(kind, cs, LatinBlank) + CountClass(kind, cs, JaBlank)
    ensures CountGraph(kind, cs) + CountBlank(kind, cs) + CountClass(kind, cs, ControlClass) == |cs|
  {
    if cs != [] {
      ClassCountsPartition(kind, cs[1..]);
    }
  }

  /** Class counts add up over a concatenation. */
  lemma {:induction false} CountClassAppend(kind: Bytes -> Kind, a: seq<Bytes>, b: seq<Bytes>, c: CharClass)
    ensures CountClass(kind, a + b, c) == CountClass(kind, a, c) + CountClass(kind, b, c)
  {
    if a == [] {
      assert a + b == b;
    } else {
      CountClassAppend(kind, a[1..], b, c);
      HeadTail(a, b);
    }
  }

  /** The character counters of one text add up as the class partition says. */
  lemma CharCountsPartition(enc: Encoding, eol: LineEnding, s: Bytes)
    ensures CountGraphChar(enc, eol, s) == CountLatinGraphChar(enc, eol, s) + CountJaGraphChar(enc, eol, s)
    ensures CountBlankChar(enc, eol, s) == CountLatinBlankChar(enc, eol, s) + CountJaBlankChar(enc, eol, s)
    ensures CountGraphChar(enc, eol, s) + CountBlankChar(enc, eol, s) <= CountChar(enc, eol, s)
  {
    ClassCountsPartition(Classifier(enc), ToChar(enc, eol, s));
  }

  // ---------------------------------------------------------------------
  // Words

  /** What a word's characters are tested for. */
  datatype CharTest = LatinChar | AlnumChar | ScriptChar

  predicate Meets(t: CharTest, k: Kind)
  {
    match t
    case LatinChar => k.IsLatin()
    case AlnumChar => k == Alnum
    case ScriptChar => k == Kanji || k == Hiragana || k == Katakana || k == Prolonged
  }

  /** Some character of `w` passes the test `t`. */
  predicate Any(kind: Bytes -> Kind, t: CharTest, w: seq<Bytes>)
    decreases |w|
  {
    w != [] && (Meets(t, kind(w[0])) || Any(kind, t, w[1..]))
  }

  lemma {:induction false} AnyIff(kind: Bytes -> Kind, t: CharTest, w: seq<Bytes>)
    ensures Any(kind, t, w) <==> exists i :: 0 <= i < |w| && Meets(t, kind(w[i]))
    decreases |w|
  {
    if w != [] {
      AnyIff(kind, t, w[1..]);
      if exists i :: 0 <= i < |w| && Meets(t, kind(w[i])) {
        var i :| 0 <= i < |w| && Meets(t, kind(w[i]));
        if i > 0 {
          assert w[1..][i - 1] == w[i];
        }
      }
      if Any(kind, t, w[1..]) {
        var i :| 0 <= i < |w[1..]| && Meets(t, kind(w[1..][i]));
        assert w[1..][i] == w[i + 1];
      }
    }
  }

  /** A Latin word holds a Latin letter, digit, punctuation mark or blank. */
  predicate IsLatinWord(kind: Bytes -> Kind, w: seq<Bytes>)
  {
    Any(kind, LatinChar, w)
  }

  /** A Japanese word opens with a Japanese character. */
  predicate IsJaWord(kind: Bytes -> Kind, w: seq<Bytes>)
  {
    |w| > 0 && kind(w[0]).IsJapanese()
  }

  /** A valid Latin word holds a letter or a digit. */
  predicate IsLatinValidWord(kind: Bytes -> Kind, w: seq<Bytes>)
  {
    Any(kind, AlnumChar, w)
  }

  /** A valid Japanese word is a Japanese word holding a kanji, a kana or
      the prolonged sound mark; a word of Japanese symbols or ideographic
      spaces alone is not valid, as punctuation alone is not valid Latin. */
  predicate IsJaValidWord(kind: Bytes -> Kind, w: seq<Bytes>)
  {
    IsJaWord(kind, w) && Any(kind, ScriptChar, w)
  }

  /** A word of Japanese symbols and ideographic spaces alone is not valid,
      neither as Japanese nor as Latin, whether or not it is a Japanese word. */
  lemma SymbolsNotValid(kind: Bytes -> Kind, w: seq<Bytes>)
    requires forall i :: 0 <= i < |w| ==> kind(w[i]) == JaSymbol || kind(w[i]) == WideBlank
    ensures w != [] ==> IsJaWord(kind, w)
    ensures !IsJaValidWord(kind, w) && !IsLatinValidWord(kind, w)
  {
    AnyIff(kind, ScriptChar, w);
    AnyIff(kind, AlnumChar, w);
  }

  /** The word filters of the word counters. */
  datatype WordFilter = AnyWord | LatinWord | JaWord | LatinValidWord | JaValidWord | ValidWord

  predicate Passes(kind: Bytes -> Kind, f: WordFilter, w: seq<Bytes>)
  {
    match f
    case AnyWord => true
    case LatinWord => IsLatinWord(kind, w)
    case JaWord => IsJaWord(kind, w)
    case LatinValidWord => IsLatinValidWord(kind, w)
    case JaValidWord => IsJaValidWord(kind, w)
    case ValidWord => IsLatinValidWord(kind, w) || IsJaValidWord(kind, w)
  }

  /** Number of words of `ws` that pass `f`. */
  function CountWords(kind: Bytes -> Kind, f: WordFilter, ws: seq<seq<Bytes>>): (n: nat)
    ensures n <= |ws|
    ensures f == AnyWord ==> n == |ws|
  {
    if ws == [] then 0
    else (if Passes(kind, f, ws[0]) then 1 else 0) + CountWords(kind, f, ws[1..])
  }

  /** Word counts add up over a concatenation. */
  lemma {:induction false} CountWordsAppend(kind: Bytes -> Kind, f: WordFilter, a: seq<seq<Bytes>>, b: seq<seq<Bytes>>)
    ensures CountWords(kind, f, a + b) == CountWords(kind, f, a) + CountWords(kind, f, b)
  {
    if a == [] {
      assert a + b == b;
    } else {
      CountWordsAppend(kind, f, a[1..], b);
      HeadTail(a, b);
    }
  }

  /** `count_word` (f = AnyWord), `count_latin_word`, `count_ja_word`,
      `count_latin_valid_word`, `count_ja_valid_word`, `count_valid_word`. */
  function CountWordsOf(enc: Encoding, f: WordFilter, s: Bytes): nat
  {
    CountWords(Classifier(enc), f, WordChars(enc, s))
  }

  /** A well-shaped word is never both Latin and Japanese. */
  lemma LatinJaDisjoint(kind: Bytes -> Kind, w: seq<Bytes>)
    requires WordShape(kind, w)
    ensures !(IsLatinWord(kind, w) && IsJaWord(kind, w))
  {
    WordHomogeneous(kind, w);
    AnyIff(kind, LatinChar, w);
  }

  /** Every character of `cs` is Latin or Japanese: none is a line break
      or a control character. */
  predicate NoBreakOrControl(kind: Bytes -> Kind, cs: seq<Bytes>)
  {
    forall i :: 0 <= i < |cs| ==> kind(cs[i]) != Break && kind(cs[i]) != Control
  }

  /** No word of `ws` opens with a line break or a control character. */
  predicate NoneOpensWithBreak(kind: Bytes -> Kind, ws: seq<seq<Bytes>>)
  {
    forall k :: 0 <= k < |ws| && ws[k] != [] ==> kind(ws[k][0]) != Break && kind(ws[k][0]) != Control
  }

  /** Words grouped from characters that are all Latin or Japanese open
      with such a character. */
  lemma {:induction false} WordsOpenPlain(kind: Bytes -> Kind, cs: seq<Bytes>)
    requires NoBreakOrControl(kind, cs)
    ensures NoneOpensWithBreak(kind, WordsOf(kind, cs))
    decreases |cs|
  {
    if cs != [] {
      var n := 1 + Extend(kind, Anchor(kind, cs[0]), Main, cs[1..]);
      var ws := WordsOf(kind, cs);
      assert ws == [cs[..n]] + WordsOf(kind, cs[n..]);
      assert NoBreakOrControl(kind, cs[n..]) by {
        forall i | 0 <= i < |cs[n..]|
          ensures kind(cs[n..][i]) != Break && kind(cs[n..][i]) != Control
        {
          assert cs[n..][i] == cs[n + i];
        }
      }
      WordsOpenPlain(kind, cs[n..]);
      forall k | 0 <= k < |ws| && ws[k] != []
        ensures kind(ws[k][0]) != Break && kind(ws[k][0]) != Control
      {
        if k == 0 {
          assert ws[0][0] == cs[0];
        } else {
          assert ws[k] == WordsOf(kind, cs[n..])[k - 1];
        }
      }
    }
  }

  /** Over well-shaped words, the Latin and the Japanese words are
      disjoint, and they are all the words when none opens with a line
      break or a control character; valid words are valid Latin or valid
      Japanese words, and each validity count is within its kind. */
  lemma {:induction false} WordCountsOfShapes(kind: Bytes -> Kind, ws: seq<seq<Bytes>>)
    requires AllShaped(kind, ws)
    ensures CountWords(kind, LatinWord, ws) + CountWords(kind, JaWord, ws) <= |ws|
    ensures NoneOpensWithBreak(kind, ws) ==>
      CountWords(kind, LatinWord, ws) + CountWords(kind, JaWord, ws) == |ws|
    ensures CountWords(kind, ValidWord, ws) ==
      CountWords(kind, LatinValidWord, ws) + CountWords(kind, JaValidWord, ws)
    ensures CountWords(kind, LatinValidWord, ws) <= CountWords(kind, LatinWord, ws)
    ensures CountWords(kind, JaValidWord, ws) <= CountWords(kind, JaWord, ws)
  {
    if ws != [] {
      assert WordShape(kind, ws[0]);
      LatinJaDisjoint(kind, ws[0]);
      if IsLatinValidWord(kind, ws[0]) {
        AnyIff(kind, AlnumChar, ws[0]);
        AnyIff(kind, LatinChar, ws[0]);
        var i :| 0 <= i < |ws[0]| && Meets(AlnumChar, kind(ws[0][i]));
        assert Meets(LatinChar, kind(ws[0][i]));
      }
      assert AllShaped(kind, ws[1..]) by {
        forall k | 0 <= k < |ws[1..]| ensures WordShape(kind, ws[1..][k]) {
          assert ws[1..][k] == ws[k + 1];
        }
      }
      if NoneOpensWithBreak(kind, ws) {
        assert NoneOpensWithBreak(kind, ws[1..]) by {
          forall k | 0 <= k < |ws[1..]| && ws[1..][k] != []
            ensures kind(ws[1..][k][0]) != Break && kind(ws[1..][k][0]) != Control
          {
            assert ws[1..][k] == ws[k + 1];
          }
        }
        assert IsLatinWord(kind, ws[0]) || IsJaWord(kind, ws[0]);
      }
      WordCountsOfShapes(kind, ws[1..]);
    }
  }

  /** The word counters of one text; the Latin and the Japanese words are
      all the words when no character is a line break or a control. */
  lemma WordCounts(enc: Encoding, s: Bytes)
    ensures CountWordsOf(enc, AnyWord, s) == |ToWord(enc, s)|
    ensures CountWordsOf(enc, LatinWord, s) + CountWordsOf(enc, JaWord, s) <= CountWordsOf(enc, AnyWord, s)
    ensures NoBreakOrControl(Classifier(enc), ToChar(enc, NONE, s)) ==>
      CountWordsOf(enc, LatinWord, s) + CountWordsOf(enc, JaWord, s) == CountWordsOf(enc, AnyWord, s)
    ensures CountWordsOf(enc, ValidWord, s) ==
      CountWordsOf(enc, LatinValidWord, s) + CountWordsOf(enc, JaValidWord, s)
    ensures CountWordsOf(enc, LatinValidWord, s) <= CountWordsOf(enc, LatinWord, s)
    ensures CountWordsOf(enc, JaValidWord, s) <= CountWordsOf(enc, JaWord, s)
  {
    WordsShapes(Classifier(enc), ToChar(enc, NONE, s));
    if NoBreakOrControl(Classifier(enc), ToChar(enc, NONE, s)) {
      WordsOpenPlain(Classifier(enc), ToChar(enc, NONE, s));
    }
    WordCountsOfShapes(Classifier(enc), WordChars(enc, s));
  }

  // ---------------------------------------------------------------------
  // Lines

  /** A line without its terminator. */
  function Content(eol: LineEnding, line: Bytes): (c: Bytes)
    ensures line == c || line == c + Terminator(eol)
    ensures EndsWithTerm(eol, line) ==> |c| == |line| - |Terminator(eol)|
  {
    if EndsWithTerm(eol, line) then line[..|line| - |Terminator(eol)|] else line
  }

  datatype LineKind = EmptyLine | BlankLine | GraphLine

  /** An empty line has nothing before its terminator; a graph line holds a
      printable character; every other line is blank. */
  function KindOfLine(enc: Encoding, eol: LineEnding, line: Bytes): (k: LineKind)
    ensures k == EmptyLine <==> Content(eol, line) == []
    ensures k == GraphLine <==> CountGraph(Classifier(enc), ToChar(enc, eol, Content(eol, line))) > 0
  {
    var c := Content(eol, line);
    if c == [] then EmptyLine
    else if CountGraph(Classifier(enc), ToChar(enc, eol, c)) > 0 then GraphLine
    else
      assert ToChar(enc, eol, c) != [];
      BlankLine
  }

  /** A line of `to_line` is empty exactly when it is a bare terminator. */
  lemma EmptyLineIsTerminator(enc: Encoding, eol: LineEnding, line: Bytes, last: bool)
    requires IsLine(eol, line, last)
    ensures KindOfLine(enc, eol, line) == EmptyLine <==> eol != NONE && line == Terminator(eol)
  {
    if eol != NONE && line == Terminator(eol) {
      assert EndsWithTerm(eol, line) by {
        assert line[|line| - |line|..] == line;
      }
    }
  }

  /** Number of lines of `ls` of kind `k`. */
  function CountLines(enc: Encoding, eol: LineEnding, k: LineKind, ls: seq<Bytes>): (n: nat)
    ensures n <= |ls|
  {
    if ls == [] then 0
    else (if KindOfLine(enc, eol, ls[0]) == k then 1 else 0) + CountLines(enc, eol, k, ls[1..])
  }

  /** Line counts add up over a concatenation. */
  lemma {:induction false} CountLinesAppend(enc: Encoding, eol: LineEnding, k: LineKind, a: seq<Bytes>, b: seq<Bytes>)
    ensures CountLines(enc, eol, k, a + b) == CountLines(enc, eol, k, a) + CountLines(enc, eol, k, b)
  {
    if a == [] {
      assert a + b == b;
    } else {
      CountLinesAppend(enc, eol, k, a[1..], b);
      HeadTail(a, b);
    }
  }

  /** `count_line`. */
  function CountLine(eol: LineEnding, s: Bytes): nat
  {
    |ToLine(eol, s)|
  }

  /** `count_empty_line`, `count_blank_line`, `count_graph_line`. */
  function CountLinesOf(enc: Encoding, eol: LineEnding, k: LineKind, s: Bytes): nat
  {
    CountLines(enc, eol, k, ToLine(eol, s))
  }

  lemma {:induction false} LineKindsPartition(enc: Encoding, eol: LineEnding, ls: seq<Bytes>)
    ensures CountLines(enc, eol, EmptyLine, ls) + CountLines(enc, eol, BlankLine, ls)
      + CountLines(enc, eol, GraphLine, ls) == |ls|
  {
    if ls != [] {
      LineKindsPartition(enc, eol, ls[1..]);
    }
  }

  /** Every line is exactly one of empty, blank and graph. */
  lemma LineCounts(enc: Encoding, eol: LineEnding, s: Bytes)
    ensures CountLinesOf(enc, eol, EmptyLine, s) + CountLinesOf(enc, eol, BlankLine, s)
      + CountLinesOf(enc, eol, GraphLine, s) == CountLine(eol, s)
  {
    LineKindsPartition(enc, eol, ToLine(eol, s));
  }
}
