/** Byte and character segmentation: `to_byte` and `to_char`. */
module Chars {
  import opened ByteStrings
  import opened Tags
  import opened EncodingTable

  /** `to_byte`: one single-byte token per input byte; a CR LF pair is two
      tokens here, whatever the end-of-line tag. */
  function ToByte(s: Bytes): (bs: seq<Bytes>)
  {
    seq(|s|, i requires 0 <= i < |s| => [s[i]])
  }

  /** `to_char`: the input read left to right as characters of `enc`; under
      CRLF a CR LF pair is one token. */
  function ToChar(enc: Encoding, eol: LineEnding, s: Bytes): (cs: seq<Bytes>)
    ensures |cs| <= |s| <= 4 * |cs|
    decreases |s|
  {
    if s == [] then []
    else
      var w := CharLen(enc, eol, s);
      [s[..w]] + ToChar(enc, eol, s[w..])
  }

  /** Every token of `to_byte` is one byte, and in order they are the input. */
  lemma {:induction false} ToByteTiles(s: Bytes)
    ensures |ToByte(s)| == |s|
    ensures forall k :: 0 <= k < |s| ==> ToByte(s)[k] == [s[k]]
    ensures Flatten(ToByte(s)) == s
  {
    if s != [] {
      ToByteTiles(s[1..]);
      var b := ToByte(s);
      assert b == [[s[0]]] + ToByte(s[1..]) by {
        forall k | 1 <= k < |b| ensures b[k] == ToByte(s[1..])[k - 1] {
          assert s[k] == s[1..][k - 1];
        }
      }
      FlattenCons([s[0]], ToByte(s[1..]));
      assert [s[0]] + s[1..] == s;
    }
  }

  /** Concatenating the character tokens gives back the input. */
  lemma {:induction false} ToCharTiles(enc: Encoding, eol: LineEnding, s: Bytes)
    ensures Flatten(ToChar(enc, eol, s)) == s
    decreases |s|
  {
    if s != [] {
      var w := CharLen(enc, eol, s);
      ToCharTiles(enc, eol, s[w..]);
      assert ToChar(enc, eol, s) == [s[..w]] + ToChar(enc, eol, s[w..]);
      FlattenCons(s[..w], ToChar(enc, eol, s[w..]));
      assert s == s[..w] + s[w..];
    }
  }

  /** A character token: the CR LF pair under CRLF, otherwise exactly one
      character of `enc`, read back with its own width. */
  predicate IsCharToken(enc: Encoding, eol: LineEnding, t: Bytes)
  {
    || (eol == CRLF && t == [CrByte, LfByte])
    || (|t| > 0 && Width(enc, t) == |t|)
  }

  /** Each token of `to_char` is a whole character: between one and four
      bytes, and one character of `enc` (or the CR LF pair) on its own. */
  lemma {:induction false} ToCharTokens(enc: Encoding, eol: LineEnding, s: Bytes)
    ensures forall k :: 0 <= k < |ToChar(enc, eol, s)| ==>
      1 <= |ToChar(enc, eol, s)[k]| <= 4 && IsCharToken(enc, eol, ToChar(enc, eol, s)[k])
    decreases |s|
  {
    if s != [] {
      var w := CharLen(enc, eol, s);
      ToCharTokens(enc, eol, s[w..]);
      if !(eol == CRLF && |s| >= 2 && s[0] == CrByte && s[1] == LfByte) {
        WidthOfPrefix(enc, s, w);
      }
      var cs := ToChar(enc, eol, s);
      assert cs == [s[..w]] + ToChar(enc, eol, s[w..]);
      forall k | 0 <= k < |cs|
        ensures 1 <= |cs[k]| <= 4 && IsCharToken(enc, eol, cs[k])
      {
        if k > 0 {
          assert cs[k] == ToChar(enc, eol, s[w..])[k - 1];
        }
      }
    }
  }

  /** A CR LF pair becomes one token exactly under CRLF: under CR, LF or
      NONE the two bytes are read as two one-byte characters. */
  lemma CrLfToken(enc: Encoding, eol: LineEnding, rest: Bytes)
    ensures eol == CRLF ==>
      ToChar(enc, eol, [CrByte, LfByte] + rest) == [[CrByte, LfByte]] + ToChar(enc, eol, rest)
    ensures eol != CRLF ==>
      ToChar(enc, eol, [CrByte, LfByte] + rest) == [[CrByte], [LfByte]] + ToChar(enc, eol, rest)
  {
    if eol == CRLF {
      ToCharCons(enc, eol, [CrByte, LfByte], rest);
    } else {
      var x := ToChar(enc, eol, rest);
      ToCharCons(enc, eol, [LfByte], rest);
      ToCharCons(enc, eol, [CrByte], [LfByte] + rest);
      assert [CrByte, LfByte] == [CrByte] + [LfByte];
      AppendAssoc([CrByte], [LfByte], rest);
      assert [[CrByte], [LfByte]] == [[CrByte]] + [[LfByte]];
      AppendAssoc([[CrByte]], [[LfByte]], x);
    }
  }

  /** There are never more characters than bytes; a text read as ASCII
      without CRLF has one character per byte. */
  lemma {:induction false} ToCharCount(enc: Encoding, eol: LineEnding, s: Bytes)
    ensures |ToChar(enc, eol, s)| <= |s|
    ensures enc == ASCII && eol != CRLF ==> ToChar(enc, eol, s) == ToByte(s)
    decreases |s|
  {
    if s != [] {
      var w := CharLen(enc, eol, s);
      ToCharCount(enc, eol, s[w..]);
      if enc == ASCII && eol != CRLF {
        assert w == 1 && s[..1] == [s[0]];
        assert ToByte(s) == [[s[0]]] + ToByte(s[1..]);
      }
    }
  }

  /** A token that `to_char` reads back on its own whatever follows it: the
      CR LF pair under CRLF, or a well-formed character (except a lone CR
      under CRLF, which a following LF would join). */
  predicate ReadsAlone(enc: Encoding, eol: LineEnding, t: Bytes)
  {
    || (eol == CRLF && t == [CrByte, LfByte])
    || (WellFormedChar(enc, t) && !(eol == CRLF && t == [CrByte]))
  }

  lemma ReadsAloneLen(enc: Encoding, eol: LineEnding, t: Bytes, r: Bytes)
    requires ReadsAlone(enc, eol, t)
    ensures |t + r| > 0 && CharLen(enc, eol, t + r) == |t|
  {
    assert (t + r)[..|t|] == t;
  }

  /** A token that reads alone is read back first, whatever follows it. */
  lemma ToCharCons(enc: Encoding, eol: LineEnding, t: Bytes, r: Bytes)
    requires ReadsAlone(enc, eol, t)
    ensures ToChar(enc, eol, t + r) == [t] + ToChar(enc, eol, r)
  {
    ReadsAloneLen(enc, eol, t, r);
    assert (t + r)[..|t|] == t && (t + r)[|t|..] == r;
  }

  /** Every token of `cs` reads alone. */
  predicate AllReadAlone(enc: Encoding, eol: LineEnding, cs: seq<Bytes>)
    decreases |cs|
  {
    cs == [] || (ReadsAlone(enc, eol, cs[0]) && AllReadAlone(enc, eol, cs[1..]))
  }

  lemma {:induction false} AllReadAloneEach(enc: Encoding, eol: LineEnding, cs: seq<Bytes>)
    ensures AllReadAlone(enc, eol, cs) <==> forall k :: 0 <= k < |cs| ==> ReadsAlone(enc, eol, cs[k])
    decreases |cs|
  {
    if cs != [] {
      AllReadAloneEach(enc, eol, cs[1..]);
      assert forall k :: 1 <= k < |cs| ==> cs[k] == cs[1..][k - 1];
    }
  }

  /** Reading the concatenation of tokens that each read alone gives the
      tokens back, and reading goes on after them as it would on its own:
      ToChar is the inverse of Flatten on such token sequences. */
  lemma {:induction false} ToCharOfChars(enc: Encoding, eol: LineEnding, cs: seq<Bytes>, rest: Bytes)
    requires AllReadAlone(enc, eol, cs)
    ensures ToChar(enc, eol, Flatten(cs) + rest) == cs + ToChar(enc, eol, rest)
    decreases |cs|
  {
    if cs == [] {
      assert Flatten(cs) + rest == rest;
    } else {
      var t, u := cs[0], cs[1..];
      ToCharOfChars(enc, eol, u, rest);
      var r := Flatten(u) + rest;
      HeadTail(cs, ToChar(enc, eol, rest));
      FlattenCons(t, u);
      assert Flatten(cs) + rest == t + r;
      ToCharCons(enc, eol, t, r);
    }
  }
}
