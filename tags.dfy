/** The two tags a CharString carries: its codeset and its end-of-line
    convention. Each constructor stands for the tag string of the same
    name ("ASCII", "EUC-JP", "Shift_JIS", "UTF-8", "JIS", "UNKNOWN";
    "CR", "LF", "CRLF", "NONE", "UNKNOWN"). */
module Tags {
  import opened ByteStrings

  datatype Codeset = ASCII | EUC_JP | Shift_JIS | UTF8 | JIS | UNKNOWN
  {
    /** JIS and UNKNOWN are only ever detected; there is no character
        table for them, so nothing can be segmented under them. */
    predicate Segmentable()
    {
      !JIS? && !UNKNOWN?
    }
  }

  datatype Eol = CR | LF | CRLF | NONE | UNKNOWN
  {
    /** UNKNOWN (mixed terminators) names no single terminator to split on. */
    predicate Segmentable()
    {
      !UNKNOWN?
    }
  }

  /** A codeset with a character table. */
  type Encoding = c: Codeset | c.Segmentable() witness ASCII

  /** An end-of-line convention that lines can be split on. */
  type LineEnding = e: Eol | e.Segmentable() witness Eol.NONE

  /** The bytes that end a line; NONE has no terminator. */
  function Terminator(e: LineEnding): (t: Bytes)
    ensures |t| <= 2
    ensures e.NONE? <==> t == []
    ensures forall k :: 0 <= k < |t| ==> t[k] == CrByte || t[k] == LfByte
  {
    match e
    case CR => [CrByte]
    case LF => [LfByte]
    case CRLF => [CrByte, LfByte]
    case NONE => []
  }
}
