/** Line segmentation, `to_line`: each line keeps its terminator. */
module Lines {
  import opened ByteStrings
  import opened Tags

  /** The terminator of `eol` occurs in `s` starting at index `i`. */
  predicate TermAt(eol: LineEnding, s: Bytes, i: nat)
  {
    match eol
    case CR => i < |s| && s[i] == CrByte
    case LF => i < |s| && s[i] == LfByte
    case CRLF => i + 1 < |s| && s[i] == CrByte && s[i + 1] == LfByte
    case NONE => false
  }

  /** The occurrence is exactly the terminator's bytes at that place. */
  lemma TermAtSlice(eol: LineEnding, s: Bytes, i: nat)
    ensures TermAt(eol, s, i) <==>
      eol != NONE && i + |Terminator(eol)| <= |s| && s[i..i + |Terminator(eol)|] == Terminator(eol)
  {
    var k := |Terminator(eol)|;
    if eol != NONE && i + k <= |s| && s[i..i + k] == Terminator(eol) {
      assert s[i] == s[i..i + k][0];
      if eol == CRLF {
        assert s[i + 1] == s[i..i + k][1];
      }
    }
  }

  /** No terminator of `eol` starts anywhere in `u`. */
  ghost predicate NoTerm(eol: LineEnding, u: Bytes)
  {
    forall i :: 0 <= i < |u| ==> !TermAt(eol, u, i)
  }

  /** `t` ends with the terminator of `eol`. */
  predicate EndsWithTerm(eol: LineEnding, t: Bytes)
  {
    var n := |Terminator(eol)|;
    eol != NONE && n <= |t| && TermAt(eol, t, |t| - n)
  }

  /** A line: a non-empty run ending with its terminator, which occurs
      nowhere earlier in it; only the last line may lack the terminator,
      and then contains none. */
  ghost predicate IsLine(eol: LineEnding, t: Bytes, last: bool)
  {
    && |t| > 0
    && ((EndsWithTerm(eol, t) && NoTerm(eol, t[..|t| - 1])) || (last && NoTerm(eol, t)))
  }

  /** Index just past the first terminator that starts at or after `i`, or
      the end of the input when there is none. */
  function LineEnd(eol: LineEnding, s: Bytes, i: nat): (n: nat)
    requires i <= |s|
    ensures i <= n <= |s|
    ensures i < |s| ==> i < n
    decreases |s| - i
  {
    if i == |s| then |s|
    else if TermAt(eol, s, i) then i + |Terminator(eol)|
    else LineEnd(eol, s, i + 1)
  }

  /** `to_line`. */
  function ToLine(eol: LineEnding, s: Bytes): (ls: seq<Bytes>)
    ensures |ls| <= |s|
    ensures s != [] ==> ls != []
    decreases |s|
  {
    if s == [] then []
    else
      var n := LineEnd(eol, s, 0);
      [s[..n]] + ToLine(eol, s[n..])
  }

  // ---------------------------------------------------------------------
  // Where LineEnd stops

  lemma {:induction false} LineEndAtTerm(eol: LineEnding, s: Bytes, i: nat, m: nat)
    requires i <= m && TermAt(eol, s, m)
    requires forall j :: i <= j < m ==> !TermAt(eol, s, j)
    ensures LineEnd(eol, s, i) == m + |Terminator(eol)|
    decreases m - i
  {
    if i < m {
      LineEndAtTerm(eol, s, i + 1, m);
    }
  }

  lemma {:induction false} LineEndNoTerm(eol: LineEnding, s: Bytes, i: nat)
    requires i <= |s|
    requires forall j :: i <= j < |s| ==> !TermAt(eol, s, j)
    ensures LineEnd(eol, s, i) == |s|
    decreases |s| - i
  {
    if i < |s| {
      LineEndNoTerm(eol, s, i + 1);
    }
  }

  /** LineEnd either stops just past a terminator with none earlier, or
      reaches the end having seen none. */
  lemma {:induction false} LineEndFound(eol: LineEnding, s: Bytes, i: nat)
    requires i <= |s|
    ensures var n := LineEnd(eol, s, i); var k := |Terminator(eol)|;
      || (i + k <= n && TermAt(eol, s, n - k) && forall j :: i <= j < n - k ==> !TermAt(eol, s, j))
      || (n == |s| && forall j :: i <= j < |s| ==> !TermAt(eol, s, j))
    decreases |s| - i
  {
    if i < |s| && !TermAt(eol, s, i) {
      LineEndFound(eol, s, i + 1);
    }
  }

  /** An occurrence inside a prefix is an occurrence in the whole. */
  lemma TermAtPrefix(eol: LineEnding, s: Bytes, n: nat, j: nat)
    requires n <= |s|
    ensures TermAt(eol, s[..n], j) <==> (TermAt(eol, s, j) && j + |Terminator(eol)| <= n)
  {
    var k := |Terminator(eol)|;
    if j + k <= n {
      assert s[..n][j..j + k] == s[j..j + k];
    }
  }

  /** An occurrence in a concatenation that lies within the first part. */
  lemma TermAtAppend(eol: LineEnding, t: Bytes, r: Bytes, j: nat)
    requires j + |Terminator(eol)| <= |t|
    ensures TermAt(eol, t + r, j) <==> TermAt(eol, t, j)
  {
    var k := |Terminator(eol)|;
    assert (t + r)[j..j + k] == t[j..j + k];
  }

  // ---------------------------------------------------------------------
  // Properties of to_line

  /** Concatenating the lines gives back the input. */
  lemma {:induction false} ToLineTiles(eol: LineEnding, s: Bytes)
    ensures Flatten(ToLine(eol, s)) == s
    decreases |s|
  {
    if s != [] {
      var n := LineEnd(eol, s, 0);
      ToLineTiles(eol, s[n..]);
      assert s == s[..n] + s[n..];
    }
  }

  /** A prefix that ends with the first terminator is a line. */
  lemma TerminatedPrefixIsLine(eol: LineEnding, s: Bytes, m: nat)
    requires TermAt(eol, s, m)
    requires forall j :: 0 <= j < m ==> !TermAt(eol, s, j)
    ensures IsLine(eol, s[..m + |Terminator(eol)|], false)
  {
    var n := m + |Terminator(eol)|;
    var t := s[..n];
    TermAtPrefix(eol, s, n, m);
    var u := t[..|t| - 1];
    assert u == s[..n - 1];
    forall i | 0 <= i < |u|
      ensures !TermAt(eol, u, i)
    {
      TermAtPrefix(eol, s, n - 1, i);
    }
  }

  /** An input without any terminator is one (last) line. */
  lemma UnterminatedIsLine(eol: LineEnding, s: Bytes)
    requires s != []
    requires forall j :: 0 <= j < |s| ==> !TermAt(eol, s, j)
    ensures IsLine(eol, s, true)
  {
  }

  /** The first line of `s` is a line in the sense of IsLine, and it is
      unterminated only when it runs to the end of the input. */
  lemma FirstLine(eol: LineEnding, s: Bytes)
    requires s != []
    ensures var n := LineEnd(eol, s, 0); IsLine(eol, s[..n], n == |s|)
  {
    var n := LineEnd(eol, s, 0);
    var k := |Terminator(eol)|;
    LineEndFound(eol, s, 0);
    if k <= n && TermAt(eol, s, n - k) && forall j :: 0 <= j < n - k ==> !TermAt(eol, s, j) {
      TerminatedPrefixIsLine(eol, s, n - k);
    } else {
      assert s[..n] == s;
      UnterminatedIsLine(eol, s);
    }
  }

  /** Every line is a line in the sense of IsLine: it ends with its
      terminator and holds no earlier one, except that the last line may be
      emitted unterminated ("chomped"). No line is empty. */
  lemma {:induction false} ToLineLines(eol: LineEnding, s: Bytes)
    ensures var ls := ToLine(eol, s);
      forall k :: 0 <= k < |ls| ==> IsLine(eol, ls[k], k == |ls| - 1)
    decreases |s|
  {
    if s != [] {
      var n := LineEnd(eol, s, 0);
      FirstLine(eol, s);
      ToLineLines(eol, s[n..]);
      var ls := ToLine(eol, s);
      assert ls == [s[..n]] + ToLine(eol, s[n..]);
      if n < |s| {
        assert ToLine(eol, s[n..]) != [];
      }
      forall k | 0 <= k < |ls|
        ensures IsLine(eol, ls[k], k == |ls| - 1)
      {
        if k > 0 {
          assert ls[k] == ToLine(eol, s[n..])[k - 1];
        } else if n < |s| {
          assert IsLine(eol, s[..n], false);
        }
      }
    }
  }

  /** A line followed by anything: LineEnd stops exactly at the line's end. */
  lemma LineEndOfLine(eol: LineEnding, t: Bytes, r: Bytes, last: bool)
    requires IsLine(eol, t, last) && (last ==> r == [])
    ensures LineEnd(eol, t + r, 0) == |t|
  {
    var k := |Terminator(eol)|;
    var s := t + r;
    if EndsWithTerm(eol, t) && NoTerm(eol, t[..|t| - 1]) {
      TermAtAppend(eol, t, r, |t| - k);
      forall j | 0 <= j < |t| - k
        ensures !TermAt(eol, s, j)
      {
        TermAtAppend(eol, t, r, j);
        TermAtPrefix(eol, t, |t| - 1, j);
      }
      LineEndAtTerm(eol, s, 0, |t| - k);
    } else {
      assert s == t;
      LineEndNoTerm(eol, s, 0);
    }
  }

  /** Splitting a concatenation of lines gives those lines back: together
      with ToLineTiles and ToLineLines this pins `to_line` down uniquely. */
  lemma {:induction false} ToLineOfLines(eol: LineEnding, ls: seq<Bytes>)
    requires forall k :: 0 <= k < |ls| ==> IsLine(eol, ls[k], k == |ls| - 1)
    ensures ToLine(eol, Flatten(ls)) == ls
  {
    if ls != [] {
      var s := Flatten(ls);
      var r := Flatten(ls[1..]);
      assert s == ls[0] + r;
      if |ls| == 1 {
        assert r == [];
      }
      LineEndOfLine(eol, ls[0], r, |ls| == 1);
      assert s[..|ls[0]|] == ls[0] && s[|ls[0]|..] == r;
      ToLineOfLines(eol, ls[1..]);
    }
  }

  /** A terminator at the start of the input is a line of its own: the
      empty line of `"foo\r\rbar\r"` is the token `"\r"`. */
  lemma EmptyLineToken(eol: LineEnding, rest: Bytes)
    requires eol != NONE
    ensures ToLine(eol, Terminator(eol) + rest) == [Terminator(eol)] + ToLine(eol, rest)
  {
    var t := Terminator(eol);
    var s := t + rest;
    assert s[0..|t|] == t;
    assert TermAt(eol, s, 0);
    assert s[..|t|] == t && s[|t|..] == rest;
  }

  /** With no end-of-line convention the whole input is one line. */
  lemma NoEolOneLine(s: Bytes)
    requires s != []
    ensures ToLine(NONE, s) == [s]
  {
    LineEndNoTerm(NONE, s, 0);
    assert s[..|s|] == s && s[|s|..] == [];
    assert ToLine(NONE, s) == [s] + ToLine(NONE, []);
  }

  /** IsLine, checked from the left one position at a time: the first
      terminator must end the line, and a line without one must be last. */
  predicate LineChecked(eol: LineEnding, t: Bytes, last: bool)
    decreases |t|
  {
    if t == [] then false
    else if TermAt(eol, t, 0) then |t| == |Terminator(eol)|
    else if |t| == 1 then last
    else LineChecked(eol, t[1..], last)
  }

  /** Removing a first byte that starts no terminator keeps a line a line
      and a non-line a non-line. */
  lemma IsLineTail(eol: LineEnding, t: Bytes, last: bool)
    requires |t| > 1 && !TermAt(eol, t, 0)
    ensures IsLine(eol, t, last) <==> IsLine(eol, t[1..], last)
  {
    var u := t[1..];
    forall i | 1 <= i <= |t|
      ensures TermAt(eol, t, i) <==> TermAt(eol, u, i - 1)
    {
    }
    var k := |Terminator(eol)|;
    if k <= |u| {
      assert TermAt(eol, t, |t| - k) <==> TermAt(eol, u, |u| - k);
    }
    var p := t[..|t| - 1];
    var q := u[..|u| - 1];
    assert q == p[1..];
    forall i | 1 <= i < |p|
      ensures TermAt(eol, p, i) <==> TermAt(eol, q, i - 1)
    {
    }
    assert !TermAt(eol, p, 0);
    if NoTerm(eol, u) {
      forall i | 0 <= i < |t| ensures !TermAt(eol, t, i) {
        if i > 0 {
          assert !TermAt(eol, u, i - 1);
        }
      }
    }
    if NoTerm(eol, q) {
      forall i | 0 <= i < |p| ensures !TermAt(eol, p, i) {
        if i > 0 {
          assert !TermAt(eol, q, i - 1);
        }
      }
    }
    if NoTerm(eol, p) {
      forall j | 0 <= j < |q| ensures !TermAt(eol, q, j) {
        assert !TermAt(eol, p, j + 1);
      }
    }
    if NoTerm(eol, t) {
      forall j | 0 <= j < |u| ensures !TermAt(eol, u, j) {
        assert !TermAt(eol, t, j + 1);
      }
    }
  }

  lemma {:induction false} LineCheckedIsLine(eol: LineEnding, t: Bytes, last: bool)
    ensures LineChecked(eol, t, last) <==> IsLine(eol, t, last)
    decreases |t|
  {
    var k := |Terminator(eol)|;
    if t == [] {
    } else if TermAt(eol, t, 0) {
      if |t| > k {
        assert TermAt(eol, t[..|t| - 1], 0);
      }
    } else if |t| == 1 {
    } else {
      LineCheckedIsLine(eol, t[1..], last);
      IsLineTail(eol, t, last);
    }
  }
}
