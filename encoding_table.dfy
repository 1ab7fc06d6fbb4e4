/** Per-codeset byte rules: how many bytes the character at the front of a
    byte string occupies, which byte patterns are well-formed characters,
    and how a character is classified for word splitting and counting.

    The script tables are coarse: EUC-JP and Shift_JIS characters are
    classified by their JIS X 0208 row (row 4 hiragana, row 5 katakana,
    rows 16 and up kanji, the ideographic space and the prolonged sound
    mark from row 1, every other row a symbol), UTF-8 characters by the
    Unicode block of their code point. */
module EncodingTable {
  import opened ByteStrings
  import opened Tags

  // ---------------------------------------------------------------------
  // Byte ranges

  predicate IsAscii(b: Byte) { b < 0x80 }

  predicate IsEucByte(b: Byte) { 0xA1 <= b <= 0xFE }

  /** The second byte of an EUC-JP half-width katakana (after 0x8E). */
  predicate IsEucKanaByte(b: Byte) { 0xA1 <= b <= 0xDF }

  predicate IsSjisLead(b: Byte) { 0x81 <= b <= 0x9F || 0xE0 <= b <= 0xFC }

  predicate IsSjisTrail(b: Byte) { 0x40 <= b <= 0xFC && b != 0x7F }

  /** A Shift_JIS single-byte half-width katakana. */
  predicate IsSjisKana(b: Byte) { 0xA1 <= b <= 0xDF }

  /** A UTF-8 continuation byte, 10xxxxxx. */
  predicate IsCont(b: Byte) { 0x80 <= b <= 0xBF }

  // ---------------------------------------------------------------------
  // Character width

  /** Number of bytes of the character that starts `s`. A lead byte that
      does not begin a complete multi-byte pattern of the codeset stands
      alone as a one-byte character, so the width never runs past the end
      of the input. */
  function Width(enc: Encoding, s: Bytes): (w: nat)
    requires |s| > 0
    ensures 1 <= w <= |s| && w <= 4
    ensures IsAscii(s[0]) ==> w == 1
  {
    match enc
    case ASCII => 1
    case EUC_JP =>
      if IsEucByte(s[0]) && |s| >= 2 && IsEucByte(s[1]) then 2
      else if s[0] == 0x8E && |s| >= 2 && IsEucKanaByte(s[1]) then 2
      else if s[0] == 0x8F && |s| >= 3 && IsEucByte(s[1]) && IsEucByte(s[2]) then 3
      else 1
    case Shift_JIS =>
      if IsSjisLead(s[0]) && |s| >= 2 && IsSjisTrail(s[1]) then 2 else 1
    case UTF8 =>
      if 0xC0 <= s[0] <= 0xDF && |s| >= 2 && IsCont(s[1]) then 2
      else if 0xE0 <= s[0] <= 0xEF && |s| >= 3 && IsCont(s[1]) && IsCont(s[2]) then 3
      else if 0xF0 <= s[0] <= 0xF7 && |s| >= 4 && IsCont(s[1]) && IsCont(s[2]) && IsCont(s[3]) then 4
      else 1
  }

  /** The width is decided by the character's own bytes: cutting the input
      right after the character does not change it. */
  lemma WidthOfPrefix(enc: Encoding, s: Bytes, n: nat)
    requires |s| > 0 && Width(enc, s) <= n <= |s|
    ensures Width(enc, s[..n]) == Width(enc, s)
  {
  }

  /** Width of the character token that starts `s` when lines end with
      `eol`: a CR LF pair is one character under CRLF. */
  function CharLen(enc: Encoding, eol: LineEnding, s: Bytes): (w: nat)
    requires |s| > 0
    ensures 1 <= w <= |s| && w <= 4
  {
    if eol == CRLF && |s| >= 2 && s[0] == CrByte && s[1] == LfByte then 2
    else Width(enc, s)
  }

  // ---------------------------------------------------------------------
  // Well-formed characters. For UTF-8 this is the lead-byte pattern
  // rule only (0xxxxxxx, 110xxxxx, 1110xxxx or 11110xxx, then that many
  // 10xxxxxx bytes); the further limits of section 3 of RFC 3629 are not
  // applied.

  /** `t` is exactly one well-formed character of the codeset. */
  predicate WellFormedChar(enc: Encoding, t: Bytes)
  {
    match enc
    case ASCII => |t| == 1 && IsAscii(t[0])
    case EUC_JP =>
      || (|t| == 1 && IsAscii(t[0]))
      || (|t| == 2 && IsEucByte(t[0]) && IsEucByte(t[1]))
      || (|t| == 2 && t[0] == 0x8E && IsEucKanaByte(t[1]))
      || (|t| == 3 && t[0] == 0x8F && IsEucByte(t[1]) && IsEucByte(t[2]))
    case Shift_JIS =>
      || (|t| == 1 && (IsAscii(t[0]) || IsSjisKana(t[0])))
      || (|t| == 2 && IsSjisLead(t[0]) && IsSjisTrail(t[1]))
    case UTF8 =>
      || (|t| == 1 && IsAscii(t[0]))
      || (|t| == 2 && 0xC0 <= t[0] <= 0xDF && IsCont(t[1]))
      || (|t| == 3 && 0xE0 <= t[0] <= 0xEF && IsCont(t[1]) && IsCont(t[2]))
      || (|t| == 4 && 0xF0 <= t[0] <= 0xF7 && IsCont(t[1]) && IsCont(t[2]) && IsCont(t[3]))
  }

  /** A well-formed character is read back with exactly its own length. */
  lemma WellFormedWidth(enc: Encoding, t: Bytes)
    requires WellFormedChar(enc, t)
    ensures |t| > 0 && Width(enc, t) == |t|
  {
  }

  /** A multi-byte character token is always well-formed: the width
      function only groups bytes that match a pattern. */
  lemma MultiByteWellFormed(enc: Encoding, s: Bytes)
    requires |s| > 0 && Width(enc, s) > 1
    ensures WellFormedChar(enc, s[..Width(enc, s)])
  {
  }

  // ---------------------------------------------------------------------
  // Classification

  /** What a character token is, for word splitting and counting. */
  datatype Kind =
    | Alnum      // ASCII letter or digit
    | Punct      // other printable ASCII
    | Blank      // space or horizontal tab
    | Break      // CR, LF, VT, FF, or a CR LF pair
    | Control    // any other control byte, or a stray byte of no character
    | Kanji
    | Hiragana
    | Katakana
    | Prolonged  // the prolonged sound mark (chouon)
    | JaSymbol   // any other multi-byte character
    | WideBlank  // the ideographic (full-width) space
  {
    predicate IsJapanese()
    {
      Kanji? || Hiragana? || Katakana? || Prolonged? || JaSymbol? || WideBlank?
    }

    predicate IsLatin()
    {
      Alnum? || Punct? || Blank?
    }
  }

  /** The counting classes of a character. */
  datatype CharClass = LatinGraph | LatinBlank | JaGraph | JaBlank | ControlClass

  function ClassOf(k: Kind): (c: CharClass)
    ensures c == LatinGraph <==> k.Alnum? || k.Punct?
    ensures c == LatinBlank <==> k.Blank?
    ensures c == JaBlank <==> k.WideBlank?
    ensures c == JaGraph <==> k.IsJapanese() && !k.WideBlank?
  {
    match k
    case Alnum => LatinGraph
    case Punct => LatinGraph
    case Blank => LatinBlank
    case Break => ControlClass
    case Control => ControlClass
    case WideBlank => JaBlank
    case _ => JaGraph
  }

  predicate IsGraphClass(c: CharClass) { c == LatinGraph || c == JaGraph }

  predicate IsBlankClass(c: CharClass) { c == LatinBlank || c == JaBlank }

  function SingleByteKind(enc: Encoding, b: Byte): Kind
  {
    if 0x30 <= b <= 0x39 || 0x41 <= b <= 0x5A || 0x61 <= b <= 0x7A then Alnum
    else if 0x21 <= b <= 0x7E then Punct
    else if b == SpaceByte || b == TabByte then Blank
    else if 0x0A <= b <= 0x0D then Break
    else if enc == Shift_JIS && IsSjisKana(b) then HalfWidthKanaKind(b)
    else Control
  }

  /** JIS X 0201 half-width katakana, by its single-byte code (0xA1-0xDF). */
  function HalfWidthKanaKind(b: Byte): Kind
  {
    if b == 0xB0 then Prolonged else if b <= 0xA5 then JaSymbol else Katakana
  }

  /** The code point of a three-byte UTF-8 sequence, with the marker bits
      of the lead and continuation bytes taken off by subtraction. */
  function Utf8CodePoint3(t: Bytes): int
    requires |t| == 3
  {
    (t[0] as int - 0xE0) * 4096 + (t[1] as int - 0x80) * 64 + (t[2] as int - 0x80)
  }

  /** On a well-formed sequence this is the code point of section 3 of
      RFC 3629: the low four bits of the lead byte, then the low six bits
      of each continuation byte. */
  lemma Utf8CodePoint3Bits(t: Bytes)
    requires |t| == 3 && 0xE0 <= t[0] <= 0xEF && IsCont(t[1]) && IsCont(t[2])
    ensures Utf8CodePoint3(t) == (t[0] as int % 16) * 4096 + (t[1] as int % 64) * 64 + t[2] as int % 64
  {
  }

  function Utf8Kind3(cp: int): Kind
  {
    if cp == 0x3000 then WideBlank
    else if cp == 0x30FC || cp == 0xFF70 then Prolonged
    else if 0x3041 <= cp <= 0x309F then Hiragana
    else if 0x30A0 <= cp <= 0x30FF || 0xFF66 <= cp <= 0xFF9F then Katakana
    else if 0x3400 <= cp <= 0x4DBF || 0x4E00 <= cp <= 0x9FFF || 0xF900 <= cp <= 0xFAFF then Kanji
    else JaSymbol
  }

  /** Kind of a two-byte JIS X 0208 character given as its EUC-JP bytes. */
  function EucKind2(t: Bytes): Kind
    requires |t| == 2
  {
    if t[0] == 0xA1 && t[1] == 0xA1 then WideBlank
    else if t[0] == 0xA1 && t[1] == 0xBC then Prolonged
    else if t[0] == 0xA4 then Hiragana
    else if t[0] == 0xA5 then Katakana
    else if t[0] >= 0xB0 then Kanji
    else JaSymbol
  }

  function SjisKind2(t: Bytes): Kind
    requires |t| == 2
  {
    if t[0] == 0x81 && t[1] == 0x40 then WideBlank
    else if t[0] == 0x81 && t[1] == 0x5B then Prolonged
    else if t[0] == 0x82 && t[1] >= 0x9F then Hiragana
    else if t[0] == 0x83 && t[1] < 0x9F then Katakana
    else if t[0] > 0x88 || (t[0] == 0x88 && t[1] >= 0x9F) then Kanji
    else JaSymbol
  }

  /** Kind of a character token (one produced by the character segmenter;
      the empty token, which it never produces, is a control). */
  function KindOf(enc: Encoding, t: Bytes): (k: Kind)
    ensures |t| == 1 ==> k == SingleByteKind(enc, t[0])
    ensures t == [CrByte, LfByte] ==> k == Break
    ensures k.IsLatin() ==> |t| == 1 && IsAscii(t[0])
  {
    if |t| == 0 then Control
    else if |t| == 1 then SingleByteKind(enc, t[0])
    else if t == [CrByte, LfByte] then Break
    else
      match enc
      case ASCII => Control
      case EUC_JP =>
        if t[0] == 0x8E then HalfWidthKanaKind(t[1])
        else if t[0] == 0x8F then (if t[1] >= 0xB0 then Kanji else JaSymbol)
        else if |t| == 2 then EucKind2(t) else JaSymbol
      case Shift_JIS => if |t| == 2 then SjisKind2(t) else JaSymbol
      case UTF8 =>
        if |t| == 3 then Utf8Kind3(Utf8CodePoint3(t))
        else if |t| == 4 && t[0] == 0xF0 && 0xA0 <= t[1] <= 0xBF then Kanji
        else JaSymbol
  }

  /** The classification of `enc` as a function on character tokens; word
      grouping and the counters are stated for any such classifier. */
  function Classifier(enc: Encoding): Bytes -> Kind
  {
    t => KindOf(enc, t)
  }
}
