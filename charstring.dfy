/** A string carrying its codeset and end-of-line tags. Either tag may be
    set by the caller; one that is read before being set is guessed from
    the text and kept from then on. Segmentation under a tag without a
    character table (JIS, UNKNOWN) or without a single terminator
    (UNKNOWN) is an error. */
module CharStrings {
  import opened ByteStrings
  import opened Tags
  import opened EncodingTable
  import Chars
  import Lines
  import Words
  import opened Counters
  import opened Detector

  datatype Failure =
    | NoCharTable(codeset: Codeset)  // JIS or UNKNOWN
    | NoTerminator                   // mixed end-of-line convention

  datatype Result<T> = Ok(value: T) | Err(error: Failure)

  /** The counters. */
  datatype Counter =
    | ByteCount
    | CharCount
    | ClassCount(cls: CharClass)  // count_latin_graph_char, count_ja_blank_char, ...
    | GraphCount
    | BlankCount
    | WordCount(filter: WordFilter) // count_word, count_latin_valid_word, ...
    | LineCount
    | LineKindCount(kind: LineKind) // count_empty_line, count_blank_line, count_graph_line

  /** Whether a counter reads the text as characters. */
  predicate NeedsCodeset(what: Counter)
  {
    !what.ByteCount? && !what.LineCount?
  }

  /** Whether a counter splits the text into characters or lines with the
      end-of-line convention. */
  predicate NeedsEol(what: Counter)
  {
    !what.ByteCount? && !what.WordCount?
  }

  /** The count itself, once the tags are known to be usable. */
  function CountIn(what: Counter, enc: Encoding, eol: LineEnding, s: Bytes): nat
  {
    match what
    case ByteCount => CountByte(s)
    case CharCount => CountChar(enc, eol, s)
    case ClassCount(c) => CountClass(Classifier(enc), Chars.ToChar(enc, eol, s), c)
    case GraphCount => CountGraphChar(enc, eol, s)
    case BlankCount => CountBlankChar(enc, eol, s)
    case WordCount(f) => CountWordsOf(enc, f, s)
    case LineCount => CountLine(eol, s)
    case LineKindCount(k) => CountLinesOf(enc, eol, k, s)
  }

  /** A counter under the tags `c` and `e`: an error exactly when it needs
      a tag that cannot be segmented under, the codeset checked first. */
  function Measure(what: Counter, c: Codeset, e: Eol, s: Bytes): (r: Result<nat>)
    ensures r.Ok? <==> (NeedsCodeset(what) ==> c.Segmentable()) && (NeedsEol(what) ==> e.Segmentable())
    ensures r.Err? && NeedsCodeset(what) && !c.Segmentable() ==> r == Err(NoCharTable(c))
    ensures r.Ok? ==> r.value == CountIn(what,
      if NeedsCodeset(what) then c else ASCII,
      if NeedsEol(what) then e else NONE, s)
  {
    if NeedsCodeset(what) && !c.Segmentable() then Err(NoCharTable(c))
    else if NeedsEol(what) && !e.Segmentable() then Err(NoTerminator)
    else
      var enc: Encoding := if NeedsCodeset(what) then c else ASCII;
      var eol: LineEnding := if NeedsEol(what) then e else NONE;
      Ok(CountIn(what, enc, eol, s))
  }

  class CharString {
    const text: Bytes
    var codeset: Option<Codeset>
    var eol: Option<Eol>

    /** A string extended with CharString: no tag set yet. */
    constructor (s: Bytes)
      ensures text == s && codeset == None && eol == None
    {
      text := s;
      codeset := None;
      eol := None;
    }

    /** The codeset tag as it reads now: the one set, or the guess. */
    function CurrentCodeset(): (c: Codeset)
      reads this
      ensures codeset.Some? ==> c == codeset.value
      ensures codeset.None? ==> c == GuessCodesetOf(text)
    {
      match codeset
      case Some(c) => c
      case None => GuessCodesetOf(text)
    }

    /** The end-of-line tag as it reads now: the one set, or the guess. */
    function CurrentEol(): (e: Eol)
      reads this
      ensures eol.Some? ==> e == eol.value
      ensures eol.None? ==> e == GuessEolOf(text)
    {
      match eol
      case Some(e) => e
      case None => GuessEolOf(text)
    }

    /** `codeset=`. */
    method SetCodeset(c: Codeset)
      modifies this
      ensures codeset == Some(c) && eol == old(eol)
      ensures CurrentCodeset() == c
    {
      codeset := Some(c);
    }

    /** `eol=`. */
    method SetEol(e: Eol)
      modifies this
      ensures eol == Some(e) && codeset == old(codeset)
      ensures CurrentEol() == e
    {
      eol := Some(e);
    }

    /** `codeset`: the tag set earlier, or else the guess, which is kept. */
    method GetCodeset() returns (c: Codeset)
      modifies this
      ensures c == old(CurrentCodeset())
      ensures codeset == Some(c) && eol == old(eol)
    {
      if codeset.None? {
        codeset := Some(GuessCodesetOf(text));
      }
      c := codeset.value;
    }

    /** `eol`: the tag set earlier, or else the guess, which is kept. */
    method GetEol() returns (e: Eol)
      modifies this
      ensures e == old(CurrentEol())
      ensures eol == Some(e) && codeset == old(codeset)
    {
      if eol.None? {
        eol := Some(GuessEolOf(text));
      }
      e := eol.value;
    }

    /** `to_byte`: needs no tag and changes none. */
    method ToByte() returns (bs: seq<Bytes>)
      ensures |bs| == |text|
      ensures forall k :: 0 <= k < |bs| ==> bs[k] == [text[k]]
    {
      Chars.ToByteTiles(text);
      bs := Chars.ToByte(text);
    }

    /** `to_line`: splits on the end-of-line tag. */
    method ToLine() returns (r: Result<seq<Bytes>>)
      modifies this
      ensures eol == Some(old(CurrentEol())) && codeset == old(codeset)
      ensures old(CurrentEol()).Segmentable() ==> r == Ok(Lines.ToLine(old(CurrentEol()), text))
      ensures !old(CurrentEol()).Segmentable() ==> r == Err(NoTerminator)
      ensures r.Ok? ==> Flatten(r.value) == text
    {
      var e := GetEol();
      if e.Segmentable() {
        Lines.ToLineTiles(e, text);
        r := Ok(Lines.ToLine(e, text));
      } else {
        r := Err(NoTerminator);
      }
    }

    /** `to_char`: reads the text under both tags. */
    method ToChar() returns (r: Result<seq<Bytes>>)
      modifies this
      ensures codeset == Some(old(CurrentCodeset())) && eol == Some(old(CurrentEol()))
      ensures !old(CurrentCodeset()).Segmentable() ==> r == Err(NoCharTable(old(CurrentCodeset())))
      ensures old(CurrentCodeset()).Segmentable() && !old(CurrentEol()).Segmentable() ==> r == Err(NoTerminator)
      ensures old(CurrentCodeset()).Segmentable() && old(CurrentEol()).Segmentable() ==>
        r == Ok(Chars.ToChar(old(CurrentCodeset()), old(CurrentEol()), text))
      ensures r.Ok? ==> Flatten(r.value) == text
    {
      var c := GetCodeset();
      var e := GetEol();
      if !c.Segmentable() {
        r := Err(NoCharTable(c));
      } else if !e.Segmentable() {
        r := Err(NoTerminator);
      } else {
        Chars.ToCharTiles(c, e, text);
        r := Ok(Chars.ToChar(c, e, text));
      }
    }

    /** `to_word`: reads the text under the codeset tag. */
    method ToWord() returns (r: Result<seq<Bytes>>)
      modifies this
      ensures codeset == Some(old(CurrentCodeset())) && eol == old(eol)
      ensures old(CurrentCodeset()).Segmentable() ==> r == Ok(Words.ToWord(old(CurrentCodeset()), text))
      ensures !old(CurrentCodeset()).Segmentable() ==> r == Err(NoCharTable(old(CurrentCodeset())))
      ensures r.Ok? ==> Flatten(r.value) == text
    {
      var c := GetCodeset();
      if c.Segmentable() {
        Words.ToWordTiles(c, text);
        r := Ok(Words.ToWord(c, text));
      } else {
        r := Err(NoCharTable(c));
      }
    }

    /** `count_byte`: needs no tag and changes none. */
    method CountBytes() returns (n: nat)
      ensures n == |text|
    {
      n := CountByte(text);
    }

    /** The `count_*` methods: reads (and so settles) the tags the counter
      needs, then counts. */
    method Count(what: Counter) returns (r: Result<nat>)
      modifies this
      ensures codeset == (if NeedsCodeset(what) then Some(old(CurrentCodeset())) else old(codeset))
      ensures eol == (if NeedsEol(what) then Some(old(CurrentEol())) else old(eol))
      ensures r == Measure(what, old(CurrentCodeset()), old(CurrentEol()), text)
    {
      var c := CurrentCodeset();
      var e := CurrentEol();
      if NeedsCodeset(what) {
        c := GetCodeset();
      }
      if NeedsEol(what) {
        e := GetEol();
      }
      r := Measure(what, c, e, text);
    }
  }
}
