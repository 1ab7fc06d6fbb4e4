/** The module functions `guess_eol` and `guess_codeset`. A missing string
    (Ruby's nil) is `None`, and so is the answer for it. */
module Detector {
  import opened ByteStrings
  import opened Tags
  import opened EncodingTable
  import opened Chars

  // ---------------------------------------------------------------------
  // guess_eol

  /** The kinds of line terminator that occur in `s`: a CR LF pair, a CR not
      followed by LF, an LF not preceded by CR. */
  function Terminators(s: Bytes): (ts: set<Eol>)
    ensures ts <= {CR, LF, CRLF}
    decreases |s|
  {
    if s == [] then {}
    else if s[0] == CrByte && |s| >= 2 && s[1] == LfByte then {CRLF} + Terminators(s[2..])
    else if s[0] == CrByte then {CR} + Terminators(s[1..])
    else if s[0] == LfByte then {LF} + Terminators(s[1..])
    else Terminators(s[1..])
  }

  predicate PairAt(s: Bytes, i: int)
  {
    0 <= i && i + 1 < |s| && s[i] == CrByte && s[i + 1] == LfByte
  }

  predicate LoneCrAt(s: Bytes, i: int)
  {
    0 <= i < |s| && s[i] == CrByte && (i + 1 == |s| || s[i + 1] != LfByte)
  }

  predicate LoneLfAt(s: Bytes, i: int)
  {
    0 <= i < |s| && s[i] == LfByte && (i == 0 || s[i - 1] != CrByte)
  }

  /** Position `i` of `s` is position `i - d` of its suffix `s[d..]`, and
      suffix positions other than the first see the same neighbours. */
  lemma ShiftAt(s: Bytes, d: nat, i: int)
    requires d <= |s| && d <= i
    ensures PairAt(s, i) <==> PairAt(s[d..], i - d)
    ensures LoneCrAt(s, i) <==> LoneCrAt(s[d..], i - d)
    ensures i > d ==> (LoneLfAt(s, i) <==> LoneLfAt(s[d..], i - d))
  {
  }

  /** The length of the terminator or character at the front of `s`. */
  function FrontLen(s: Bytes): (d: nat)
    requires s != []
    ensures 1 <= d <= |s|
  {
    if s[0] == CrByte && |s| >= 2 && s[1] == LfByte then 2 else 1
  }

  lemma {:induction false} PairsByPosition(s: Bytes)
    ensures CRLF in Terminators(s) <==> exists i :: PairAt(s, i)
    decreases |s|
  {
    if s != [] {
      var d := FrontLen(s);
      var r := s[d..];
      PairsByPosition(r);
      if d == 2 {
        assert PairAt(s, 0);
      }
      if exists j :: PairAt(r, j) {
        var j :| PairAt(r, j);
        ShiftAt(s, d, j + d);
      }
      if exists i :: PairAt(s, i) {
        var i :| PairAt(s, i);
        if i >= d {
          ShiftAt(s, d, i);
        }
      }
    }
  }

  lemma {:induction false} LoneCrsByPosition(s: Bytes)
    ensures CR in Terminators(s) <==> exists i :: LoneCrAt(s, i)
    decreases |s|
  {
    if s != [] {
      var d := FrontLen(s);
      var r := s[d..];
      LoneCrsByPosition(r);
      if d == 1 && s[0] == CrByte {
        assert LoneCrAt(s, 0);
      }
      if exists j :: LoneCrAt(r, j) {
        var j :| LoneCrAt(r, j);
        ShiftAt(s, d, j + d);
      }
      if exists i :: LoneCrAt(s, i) {
        var i :| LoneCrAt(s, i);
        if i >= d {
          ShiftAt(s, d, i);
        }
      }
    }
  }

  lemma {:induction false} LoneLfsByPosition(s: Bytes)
    ensures LF in Terminators(s) <==> exists i :: LoneLfAt(s, i)
    decreases |s|
  {
    if s != [] {
      var d := FrontLen(s);
      var r := s[d..];
      LoneLfsByPosition(r);
      if d == 1 && s[0] == LfByte {
        assert LoneLfAt(s, 0);
      }
      if exists j :: LoneLfAt(r, j) {
        var j :| LoneLfAt(r, j);
        if j == 0 {
          assert s[d - 1] != CrByte;
          assert LoneLfAt(s, d);
        } else {
          ShiftAt(s, d, j + d);
        }
      }
      if exists i :: LoneLfAt(s, i) {
        var i :| LoneLfAt(s, i);
        if i > d {
          ShiftAt(s, d, i);
        } else if i == d {
          assert LoneLfAt(r, 0);
        } else {
          assert d == 1 && i == 0;
        }
      }
    }
  }

  /** Terminators finds exactly the terminators that occur, by position. */
  lemma TerminatorsByPosition(s: Bytes)
    ensures CRLF in Terminators(s) <==> exists i :: PairAt(s, i)
    ensures CR in Terminators(s) <==> exists i :: LoneCrAt(s, i)
    ensures LF in Terminators(s) <==> exists i :: LoneLfAt(s, i)
  {
    PairsByPosition(s);
    LoneCrsByPosition(s);
    LoneLfsByPosition(s);
  }

  /** A text without CR and LF bytes has no terminator. */
  lemma {:induction false} NoBreakTerminators(s: Bytes)
    requires CrByte !in s && LfByte !in s
    ensures Terminators(s) == {}
    decreases |s|
  {
    if s != [] {
      assert s[0] in s;
      assert forall b :: b in s[1..] ==> b in s;
      NoBreakTerminators(s[1..]);
    }
  }

  /** The terminator, if any, at the front of `s`. */
  function FrontTerminators(s: Bytes): (ts: set<Eol>)
    requires s != []
  {
    if FrontLen(s) == 2 then {CRLF}
    else if s[0] == CrByte then {CR}
    else if s[0] == LfByte then {LF}
    else {}
  }

  lemma TerminatorsFront(s: Bytes)
    requires s != []
    ensures Terminators(s) == FrontTerminators(s) + Terminators(s[FrontLen(s)..])
  {
  }

  /** The terminators of a concatenation are those of its parts, unless a
      CR ending the first part and an LF starting the second join into a
      pair. */
  lemma {:induction false} TerminatorsAppend(a: Bytes, b: Bytes)
    requires !(|a| > 0 && |b| > 0 && a[|a| - 1] == CrByte && b[0] == LfByte)
    ensures Terminators(a + b) == Terminators(a) + Terminators(b)
    decreases |a|
  {
    if a == [] {
      assert a + b == b;
    } else {
      var s := a + b;
      var d := FrontLen(a);
      assert s[0] == a[0];
      if |a| >= 2 {
        assert s[1] == a[1];
      }
      assert FrontLen(s) == d && FrontTerminators(s) == FrontTerminators(a);
      TerminatorsFront(a);
      TerminatorsFront(s);
      TerminatorsAppend(a[d..], b);
      assert s[d..] == a[d..] + b;
    }
  }

  /** At least two kinds of terminator occur. */
  predicate Mixed(ts: set<Eol>)
  {
    (CR in ts && LF in ts) || (CR in ts && CRLF in ts) || (LF in ts && CRLF in ts)
  }

  /** `guess_eol` of a string that is there. */
  function GuessEolOf(s: Bytes): (e: Eol)
    ensures e == NONE <==> Terminators(s) == {}
    ensures e == Eol.UNKNOWN <==> Mixed(Terminators(s))
    ensures e != NONE && e != Eol.UNKNOWN ==> Terminators(s) == {e}
  {
    var ts := Terminators(s);
    if ts == {} then NONE
    else if ts == {CR} then CR
    else if ts == {LF} then LF
    else if ts == {CRLF} then CRLF
    else
      assert Mixed(ts);
      Eol.UNKNOWN
  }

  /** `guess_eol`: nil for nil; NONE when no terminator occurs; the one kind
      that occurs; UNKNOWN when several kinds are mixed. */
  function GuessEol(s: Option<Bytes>): (r: Option<Eol>)
    ensures r.None? <==> s.None?
    ensures s.Some? ==> r == Some(GuessEolOf(s.value))
  {
    if s.None? then None else Some(GuessEolOf(s.value))
  }

  /** The answer named in terms of positions. */
  lemma GuessEolByPosition(s: Bytes)
    ensures GuessEolOf(s) == NONE <==>
      (forall i :: !PairAt(s, i)) && (forall i :: !LoneCrAt(s, i)) && (forall i :: !LoneLfAt(s, i))
    ensures GuessEolOf(s) == CRLF <==>
      (exists i :: PairAt(s, i)) && (forall i :: !LoneCrAt(s, i)) && (forall i :: !LoneLfAt(s, i))
    ensures GuessEolOf(s) == CR <==>
      (forall i :: !PairAt(s, i)) && (exists i :: LoneCrAt(s, i)) && (forall i :: !LoneLfAt(s, i))
    ensures GuessEolOf(s) == LF <==>
      (forall i :: !PairAt(s, i)) && (forall i :: !LoneCrAt(s, i)) && (exists i :: LoneLfAt(s, i))
  {
    TerminatorsByPosition(s);
  }

  // ---------------------------------------------------------------------
  // guess_codeset

  /** The JIS escape that switches to JIS X 0208: ESC $ B or ESC $ @. */
  predicate JisEscapeAt(s: Bytes, i: int)
  {
    0 <= i && i + 2 < |s| && s[i] == 0x1B && s[i + 1] == 0x24 && (s[i + 2] == 0x42 || s[i + 2] == 0x40)
  }

  predicate HasJisEscape(s: Bytes)
  {
    exists i :: 0 <= i < |s| && JisEscapeAt(s, i)
  }

  predicate AllAscii(s: Bytes)
  {
    forall i :: 0 <= i < |s| ==> IsAscii(s[i])
  }

  /** `s` reads, character by character, as well-formed text of `enc`. */
  predicate Valid(enc: Encoding, s: Bytes)
    decreases |s|
  {
    s == [] || (WellFormedChar(enc, s[..Width(enc, s)]) && Valid(enc, s[Width(enc, s)..]))
  }

  /** Valid text is exactly text whose every character token is well-formed. */
  lemma {:induction false} ValidIffTokens(enc: Encoding, s: Bytes)
    ensures Valid(enc, s) <==>
      forall k :: 0 <= k < |ToChar(enc, NONE, s)| ==> WellFormedChar(enc, ToChar(enc, NONE, s)[k])
    decreases |s|
  {
    if s != [] {
      var w := Width(enc, s);
      var cs := ToChar(enc, NONE, s);
      ValidIffTokens(enc, s[w..]);
      assert cs == [s[..w]] + ToChar(enc, NONE, s[w..]);
      assert cs[0] == s[..w];
      if forall k :: 0 <= k < |cs| ==> WellFormedChar(enc, cs[k]) {
        forall k | 0 <= k < |ToChar(enc, NONE, s[w..])|
          ensures WellFormedChar(enc, ToChar(enc, NONE, s[w..])[k])
        {
          assert ToChar(enc, NONE, s[w..])[k] == cs[k + 1];
        }
      }
      if Valid(enc, s) {
        forall k | 0 <= k < |cs| ensures WellFormedChar(enc, cs[k]) {
          if k > 0 {
            assert cs[k] == ToChar(enc, NONE, s[w..])[k - 1];
          }
        }
      }
    }
  }

  /** Seven-bit text is valid in every codeset, and it is the only text
      valid as ASCII. */
  lemma {:induction false} AsciiValid(enc: Encoding, s: Bytes)
    ensures AllAscii(s) ==> Valid(enc, s)
    ensures Valid(ASCII, s) <==> AllAscii(s)
    decreases |s|
  {
    if s != [] {
      AsciiValid(enc, s[1..]);
      AsciiValid(ASCII, s[1..]);
      assert s[..1] == [s[0]];
      if AllAscii(s) {
        assert IsAscii(s[0]);
        assert AllAscii(s[1..]) by {
          forall i | 0 <= i < |s[1..]| ensures IsAscii(s[1..][i]) {
            assert s[1..][i] == s[i + 1];
          }
        }
      }
      if Valid(ASCII, s) && AllAscii(s[1..]) {
        forall i | 0 <= i < |s| ensures IsAscii(s[i]) {
          if i > 0 {
            assert s[i] == s[1..][i - 1];
          }
        }
      }
    }
  }

  /** A text without an ESC byte has no JIS escape. */
  lemma NoEscapeNoJis(s: Bytes)
    requires 0x1B !in s
    ensures !HasJisEscape(s)
  {
    forall i | 0 <= i < |s| ensures !JisEscapeAt(s, i) {
      assert s[i] in s;
    }
  }

  /** A text is valid exactly when its first character is well-formed and
      the rest is valid. */
  lemma ValidCons(enc: Encoding, t: Bytes, r: Bytes)
    requires WellFormedChar(enc, t)
    ensures Valid(enc, t + r) <==> Valid(enc, r)
  {
    WellFormedWidth(enc, t);
    WidthOfPrefix(enc, t + r, |t|);
    assert (t + r)[..|t|] == t && (t + r)[|t|..] == r;
  }

  /** A text whose first byte is a lone byte of no character of `enc` is
      not valid. */
  lemma InvalidFront(enc: Encoding, s: Bytes)
    requires s != [] && Width(enc, s) == 1 && !WellFormedChar(enc, [s[0]])
    ensures !Valid(enc, s)
  {
    assert s[..1] == [s[0]];
  }

  /** `guess_codeset` of a string that is there: JIS when a JIS escape
      occurs, else ASCII for seven-bit text, else the first of UTF-8,
      EUC-JP and Shift_JIS the text is valid in, else UNKNOWN. */
  function GuessCodesetOf(s: Bytes): (c: Codeset)
    ensures c == JIS <==> HasJisEscape(s)
    ensures c == ASCII <==> !HasJisEscape(s) && AllAscii(s)
    ensures c.Segmentable() ==> Valid(c, s)
    ensures c == Codeset.UNKNOWN <==>
      && !HasJisEscape(s)
      && !Valid(ASCII, s) && !Valid(UTF8, s) && !Valid(EUC_JP, s) && !Valid(Shift_JIS, s)
  {
    AsciiValid(ASCII, s);
    if HasJisEscape(s) then JIS
    else if AllAscii(s) then ASCII
    else if Valid(UTF8, s) then UTF8
    else if Valid(EUC_JP, s) then EUC_JP
    else if Valid(Shift_JIS, s) then Shift_JIS
    else Codeset.UNKNOWN
  }

  /** `guess_codeset`: nil for nil. */
  function GuessCodeset(s: Option<Bytes>): (r: Option<Codeset>)
    ensures r.None? <==> s.None?
    ensures s.Some? ==> r == Some(GuessCodesetOf(s.value))
  {
    if s.None? then None else Some(GuessCodesetOf(s.value))
  }

  /** The detected codeset prefers the earlier candidate: a text guessed as
      EUC-JP is not valid UTF-8, one guessed as Shift_JIS is valid in
      neither UTF-8 nor EUC-JP. */
  lemma GuessCodesetPrefers(s: Bytes)
    ensures GuessCodesetOf(s) == UTF8 ==> !AllAscii(s)
    ensures GuessCodesetOf(s) == EUC_JP ==> !AllAscii(s) && !Valid(UTF8, s)
    ensures GuessCodesetOf(s) == Shift_JIS ==> !AllAscii(s) && !Valid(UTF8, s) && !Valid(EUC_JP, s)
  {
  }
}
