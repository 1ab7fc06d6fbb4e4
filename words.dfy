/** Word tokenization, `to_word`.

    A word opens with a character and takes the run that character belongs
    to. It then continues while the next character may join:
    - a Latin run (letters, digits, punctuation) takes more of the same and
      then at most one space or tab, which closes it;
    - a run of spaces, tabs and line-break bytes takes more of the same, so
      the blanks after a word's absorbed blank, and a terminator after them,
      form one token;
    - a kanji or katakana run may be followed by hiragana (okurigana,
      particles), after which no more kanji or katakana join;
    - every other run (hiragana, symbols, ideographic spaces) takes only
      more of the same;
    - the prolonged sound mark joins any run of Japanese script.
    A Latin run never merges with a Japanese one.
    The rules are stated for any classifier `kind` of character tokens;
    `to_word` uses the classifier of the text's codeset. */
module Words {
  import opened ByteStrings
  import opened Tags
  import opened EncodingTable
  import opened Chars

  /** The run a character opens or joins. */
  datatype Run =
    | LatinRun | SpaceRun
    | KanjiRun | HiraganaRun | KatakanaRun | ProlongedRun | SymbolRun | WideBlankRun
  {
    /** Runs of Japanese script, which the prolonged sound mark joins. */
    predicate IsScript()
    {
      KanjiRun? || HiraganaRun? || KatakanaRun? || ProlongedRun? || SymbolRun?
    }

    /** Runs that hiragana may follow. */
    predicate TakesOkurigana()
    {
      KanjiRun? || KatakanaRun?
    }
  }

  /** The run a character of kind `k` opens; Japanese characters open
      Japanese runs and no others do. */
  function RunOf(k: Kind): (r: Run)
    ensures k.IsJapanese() <==> r != LatinRun && r != SpaceRun
  {
    match k
    case Alnum => LatinRun
    case Punct => LatinRun
    case Control => LatinRun
    case Blank => SpaceRun
    case Break => SpaceRun
    case Kanji => KanjiRun
    case Hiragana => HiraganaRun
    case Katakana => KatakanaRun
    case Prolonged => ProlongedRun
    case JaSymbol => SymbolRun
    case WideBlank => WideBlankRun
  }

  /** Main: still inside the run; Tail: past the run, in its attachments. */
  datatype Phase = Main | Tail

  /** One step of the word automaton: whether a character of kind `k` joins
      a word of run `a` in phase `p`, and the phase after it. */
  function Step(a: Run, p: Phase, k: Kind): (r: Option<Phase>)
    ensures r.Some? ==> InHead(a, k) || InTail(a, k)
    ensures r.Some? && p == Tail ==> r == Some(Tail)
    ensures r.Some? ==> (k.IsJapanese() <==> a != LatinRun && a != SpaceRun)
  {
    if k == Prolonged && a.IsScript() then Some(p)
    else if p == Main && RunOf(k) == a then Some(Main)
    else if a == LatinRun && p == Main && k == Blank then Some(Tail)
    else if a.TakesOkurigana() && k == Hiragana then Some(Tail)
    else None
  }

  /** How many of the characters `cs` join a word of run `a` in phase `p`. */
  function Extend(kind: Bytes -> Kind, a: Run, p: Phase, cs: seq<Bytes>): (n: nat)
    ensures n <= |cs|
    decreases |cs|
  {
    if cs == [] then 0
    else
      match Step(a, p, kind(cs[0]))
      case None => 0
      case Some(q) => 1 + Extend(kind, a, q, cs[1..])
  }

  /** The run a word opening with character `c` takes. */
  function Anchor(kind: Bytes -> Kind, c: Bytes): Run
  {
    RunOf(kind(c))
  }

  /** Groups characters into words, left to right. */
  function WordsOf(kind: Bytes -> Kind, cs: seq<Bytes>): (ws: seq<seq<Bytes>>)
    ensures |ws| <= |cs|
    ensures cs != [] ==> ws != []
    decreases |cs|
  {
    if cs == [] then []
    else
      var n := 1 + Extend(kind, Anchor(kind, cs[0]), Main, cs[1..]);
      [cs[..n]] + WordsOf(kind, cs[n..])
  }

  /** Each word as its bytes. */
  function JoinEach(ws: seq<seq<Bytes>>): (ts: seq<Bytes>)
    ensures |ts| == |ws|
    ensures forall k :: 0 <= k < |ws| ==> ts[k] == Flatten(ws[k])
  {
    seq(|ws|, k requires 0 <= k < |ws| => Flatten(ws[k]))
  }

  /** The words of `s`, as character sequences. Word splitting does not
      depend on the end-of-line tag: a CR LF pair is two line-break
      characters of one space run. */
  function WordChars(enc: Encoding, s: Bytes): seq<seq<Bytes>>
  {
    WordsOf(Classifier(enc), ToChar(enc, NONE, s))
  }

  /** `to_word`. */
  function ToWord(enc: Encoding, s: Bytes): (ts: seq<Bytes>)
    ensures |ts| <= |s|
  {
    JoinEach(WordChars(enc, s))
  }

  // ---------------------------------------------------------------------
  // The shape of a word, stated without the automaton

  /** A character of kind `k` belongs to the run `a` itself. */
  predicate InHead(a: Run, k: Kind)
  {
    RunOf(k) == a || (k == Prolonged && a.IsScript())
  }

  /** A character of kind `k` may follow the run `a`. */
  predicate InTail(a: Run, k: Kind)
  {
    || (a == LatinRun && k == Blank)
    || (a.IsScript() && k == Prolonged)
    || (a.TakesOkurigana() && k == Hiragana)
  }

  /** `cs` is a head of run `a` (its first `j` characters) followed by a
      tail; a Latin word has at most one tail character. */
  ghost predicate SplitAt(kind: Bytes -> Kind, a: Run, cs: seq<Bytes>, j: nat)
  {
    && j <= |cs|
    && (forall i :: 0 <= i < j ==> InHead(a, kind(cs[i])))
    && (forall i :: j <= i < |cs| ==> InTail(a, kind(cs[i])))
    && (a == LatinRun ==> |cs| - j <= 1)
  }

  /** A word: an opening character, then the rest of its run, then that
      run's attachments. */
  ghost predicate WordShape(kind: Bytes -> Kind, w: seq<Bytes>)
  {
    |w| > 0 && exists j :: SplitAt(kind, Anchor(kind, w[0]), w[1..], j)
  }

  /** A word `w` that the character `c` cannot extend. */
  ghost predicate Closed(kind: Bytes -> Kind, w: seq<Bytes>, c: Bytes)
  {
    !WordShape(kind, w + [c])
  }

  // ---------------------------------------------------------------------
  // The automaton accepts exactly the word shapes

  /** The phase after reading all of `cs`, if every character joins. */
  function Accepts(kind: Bytes -> Kind, a: Run, p: Phase, cs: seq<Bytes>): Option<Phase>
    decreases |cs|
  {
    if cs == [] then Some(p)
    else
      match Step(a, p, kind(cs[0]))
      case None => None
      case Some(Main) => Accepts(kind, a, Main, cs[1..])
      case Some(Tail) => Accepts(kind, a, Tail, cs[1..])
  }

  lemma {:induction false} AcceptsSnoc(kind: Bytes -> Kind, a: Run, p: Phase, cs: seq<Bytes>, c: Bytes)
    ensures Accepts(kind, a, p, cs + [c]) ==
      match Accepts(kind, a, p, cs)
      case None => None
      case Some(q) => Step(a, q, kind(c))
    decreases |cs|
  {
    if cs == [] {
      assert [c][1..] == [];
    } else {
      var d := cs + [c];
      assert d[0] == cs[0] && d[1..] == cs[1..] + [c];
      var st := Step(a, p, kind(cs[0]));
      if st.Some? {
        assert Accepts(kind, a, p, cs) == Accepts(kind, a, st.value, cs[1..]);
        assert Accepts(kind, a, p, d) == Accepts(kind, a, st.value, d[1..]);
        AcceptsSnoc(kind, a, st.value, cs[1..], c);
      }
    }
  }

  /** What Extend consumes is accepted, and the character after it is not. */
  lemma {:induction false} ExtendAccepted(kind: Bytes -> Kind, a: Run, p: Phase, cs: seq<Bytes>)
    ensures var n := Extend(kind, a, p, cs);
      && Accepts(kind, a, p, cs[..n]).Some?
      && (n < |cs| ==> Step(a, Accepts(kind, a, p, cs[..n]).value, kind(cs[n])).None?)
    decreases |cs|
  {
    if cs != [] {
      match Step(a, p, kind(cs[0]))
      case None =>
        assert cs[..0] == [];
      case Some(q) =>
        ExtendAccepted(kind, a, q, cs[1..]);
        var n := Extend(kind, a, p, cs);
        assert cs[..n][1..] == cs[1..][..n - 1];
        if n < |cs| {
          assert cs[n] == cs[1..][n - 1];
        }
    }
  }

  /** Extend stops exactly at the end of an accepted prefix that the next
      character does not continue. */
  lemma {:induction false} ExtendOfAccepted(kind: Bytes -> Kind, a: Run, p: Phase, w: seq<Bytes>, r: seq<Bytes>)
    requires Accepts(kind, a, p, w).Some?
    requires r != [] ==> Step(a, Accepts(kind, a, p, w).value, kind(r[0])).None?
    ensures Extend(kind, a, p, w + r) == |w|
    decreases |w|
  {
    if w == [] {
      assert w + r == r;
    } else {
      assert (w + r)[0] == w[0] && (w + r)[1..] == w[1..] + r;
      var q := Step(a, p, kind(w[0])).value;
      ExtendOfAccepted(kind, a, q, w[1..], r);
    }
  }

  /** In the Tail phase only tail characters join, and a Latin word takes
      none after its blank. */
  lemma {:induction false} AcceptedTail(kind: Bytes -> Kind, a: Run, cs: seq<Bytes>)
    requires Accepts(kind, a, Tail, cs).Some?
    ensures forall i :: 0 <= i < |cs| ==> InTail(a, kind(cs[i]))
    ensures a == LatinRun ==> cs == []
    decreases |cs|
  {
    if cs != [] {
      AcceptedTail(kind, a, cs[1..]);
      forall i | 1 <= i < |cs|
        ensures InTail(a, kind(cs[i]))
      {
        assert cs[i] == cs[1..][i - 1];
      }
    }
  }

  /** An accepted run splits into head and tail. */
  lemma {:induction false} AcceptedSplit(kind: Bytes -> Kind, a: Run, cs: seq<Bytes>)
    requires Accepts(kind, a, Main, cs).Some?
    ensures exists j :: SplitAt(kind, a, cs, j)
    decreases |cs|
  {
    if cs == [] {
      assert SplitAt(kind, a, cs, 0);
    } else {
      var q := Step(a, Main, kind(cs[0])).value;
      if q == Main {
        AcceptedSplit(kind, a, cs[1..]);
        var j: nat :| SplitAt(kind, a, cs[1..], j);
        forall i | 1 <= i < |cs|
          ensures i < j + 1 ==> InHead(a, kind(cs[i]))
          ensures i >= j + 1 ==> InTail(a, kind(cs[i]))
        {
          assert cs[i] == cs[1..][i - 1];
        }
        assert SplitAt(kind, a, cs, j + 1);
      } else {
        AcceptedTail(kind, a, cs[1..]);
        forall i | 1 <= i < |cs|
          ensures InTail(a, kind(cs[i]))
        {
          assert cs[i] == cs[1..][i - 1];
        }
        assert SplitAt(kind, a, cs, 0);
      }
    }
  }

  /** Tail characters are accepted in the Tail phase. */
  lemma {:induction false} TailAccepted(kind: Bytes -> Kind, a: Run, cs: seq<Bytes>)
    requires forall i :: 0 <= i < |cs| ==> InTail(a, kind(cs[i]))
    requires a == LatinRun ==> cs == []
    ensures Accepts(kind, a, Tail, cs).Some?
    decreases |cs|
  {
    if cs != [] {
      TailAccepted(kind, a, cs[1..]);
    }
  }

  /** A head followed by a tail is accepted from the Main phase. */
  lemma {:induction false} SplitAccepted(kind: Bytes -> Kind, a: Run, cs: seq<Bytes>, j: nat)
    requires SplitAt(kind, a, cs, j)
    ensures Accepts(kind, a, Main, cs).Some?
    decreases |cs|
  {
    if cs != [] {
      var k := kind(cs[0]);
      if j > 0 {
        assert SplitAt(kind, a, cs[1..], j - 1);
        SplitAccepted(kind, a, cs[1..], j - 1);
      } else if k == Prolonged && a.IsScript() {
        assert SplitAt(kind, a, cs[1..], 0);
        SplitAccepted(kind, a, cs[1..], 0);
      } else {
        assert Step(a, Main, k) == Some(Tail);
        TailAccepted(kind, a, cs[1..]);
      }
    }
  }

  /** The automaton and the word shape agree. */
  lemma ShapeIffAccepted(kind: Bytes -> Kind, w: seq<Bytes>)
    requires |w| > 0
    ensures WordShape(kind, w) <==> Accepts(kind, Anchor(kind, w[0]), Main, w[1..]).Some?
  {
    var a := Anchor(kind, w[0]);
    if WordShape(kind, w) {
      var j: nat :| SplitAt(kind, a, w[1..], j);
      SplitAccepted(kind, a, w[1..], j);
    }
    if Accepts(kind, a, Main, w[1..]).Some? {
      AcceptedSplit(kind, a, w[1..]);
    }
  }

  // ---------------------------------------------------------------------
  // Properties of to_word

  /** The first word of a character sequence has the word shape, and the
      character after it cannot extend it. */
  lemma FirstWord(kind: Bytes -> Kind, cs: seq<Bytes>)
    requires cs != []
    ensures var n := 1 + Extend(kind, Anchor(kind, cs[0]), Main, cs[1..]);
      && WordShape(kind, cs[..n])
      && (n < |cs| ==> Closed(kind, cs[..n], cs[n]))
  {
    var a := Anchor(kind, cs[0]);
    var n := 1 + Extend(kind, a, Main, cs[1..]);
    var w := cs[..n];
    ExtendAccepted(kind, a, Main, cs[1..]);
    assert w[1..] == cs[1..][..n - 1];
    ShapeIffAccepted(kind, w);
    if n < |cs| {
      var c := cs[n];
      assert cs[1..][n - 1] == c;
      var q := Accepts(kind, a, Main, w[1..]).value;
      assert Step(a, q, kind(c)).None?;
      AcceptsSnoc(kind, a, Main, w[1..], c);
      assert (w + [c])[1..] == w[1..] + [c];
      ShapeIffAccepted(kind, w + [c]);
    }
  }

  /** Concatenating the words gives back the characters. */
  lemma {:induction false} WordsTiles(kind: Bytes -> Kind, cs: seq<Bytes>)
    ensures Flatten(WordsOf(kind, cs)) == cs
    decreases |cs|
  {
    if cs != [] {
      var n := 1 + Extend(kind, Anchor(kind, cs[0]), Main, cs[1..]);
      WordsTiles(kind, cs[n..]);
      FlattenCons(cs[..n], WordsOf(kind, cs[n..]));
      assert cs == cs[..n] + cs[n..];
    }
  }

  /** Every word of `ws` has the word shape. */
  ghost predicate AllShaped(kind: Bytes -> Kind, ws: seq<seq<Bytes>>)
  {
    forall k :: 0 <= k < |ws| ==> WordShape(kind, ws[k])
  }

  /** No word of `ws` could have taken the first character of the next. */
  ghost predicate AllClosed(kind: Bytes -> Kind, ws: seq<seq<Bytes>>)
  {
    forall k :: 1 <= k < |ws| ==> ws[k] != [] && Closed(kind, ws[k - 1], ws[k][0])
  }

  /** Every word has the word shape, and no word could have been extended
      by the first character of the next one: the words are the
      leftmost-longest matches of the shape. */
  lemma {:induction false} WordsShapes(kind: Bytes -> Kind, cs: seq<Bytes>)
    ensures AllShaped(kind, WordsOf(kind, cs))
    ensures AllClosed(kind, WordsOf(kind, cs))
    decreases |cs|
  {
    if cs != [] {
      var n := 1 + Extend(kind, Anchor(kind, cs[0]), Main, cs[1..]);
      FirstWord(kind, cs);
      WordsShapes(kind, cs[n..]);
      var ws := WordsOf(kind, cs);
      var rest := WordsOf(kind, cs[n..]);
      assert ws == [cs[..n]] + rest;
      if rest != [] {
        var m := 1 + Extend(kind, Anchor(kind, cs[n..][0]), Main, cs[n..][1..]);
        assert rest[0] == cs[n..][..m];
        assert rest[0][0] == cs[n];
      }
      forall k | 0 <= k < |ws|
        ensures WordShape(kind, ws[k])
      {
        if k > 0 {
          assert ws[k] == rest[k - 1];
        }
      }
      forall k | 1 <= k < |ws|
        ensures ws[k] != [] && Closed(kind, ws[k - 1], ws[k][0])
      {
        assert ws[k] == rest[k - 1];
        if k > 1 {
          assert ws[k - 1] == rest[k - 2];
        }
      }
    }
  }

  /** A word followed by characters that it cannot take: the automaton
      stops exactly at the word's end. */
  lemma FirstWordOf(kind: Bytes -> Kind, w: seq<Bytes>, r: seq<Bytes>)
    requires WordShape(kind, w)
    requires r != [] ==> Closed(kind, w, r[0])
    ensures (w + r)[0] == w[0]
    ensures Extend(kind, Anchor(kind, w[0]), Main, (w + r)[1..]) == |w| - 1
  {
    var a := Anchor(kind, w[0]);
    ShapeIffAccepted(kind, w);
    var q := Accepts(kind, a, Main, w[1..]).value;
    if r != [] && Step(a, q, kind(r[0])).Some? {
      AcceptsSnoc(kind, a, Main, w[1..], r[0]);
      assert (w + [r[0]])[1..] == w[1..] + [r[0]];
      ShapeIffAccepted(kind, w + [r[0]]);
      assert false;
    }
    assert (w + r)[1..] == w[1..] + r;
    ExtendOfAccepted(kind, a, Main, w[1..], r);
  }

  /** Dropping the first word keeps the words shaped and closed. */
  lemma ShapedClosedTail(kind: Bytes -> Kind, ws: seq<seq<Bytes>>)
    requires ws != [] && AllShaped(kind, ws) && AllClosed(kind, ws)
    ensures AllShaped(kind, ws[1..]) && AllClosed(kind, ws[1..])
  {
    forall k | 0 <= k < |ws[1..]| ensures WordShape(kind, ws[1..][k]) {
      assert ws[1..][k] == ws[k + 1];
    }
    forall k | 1 <= k < |ws[1..]|
      ensures ws[1..][k] != [] && Closed(kind, ws[1..][k - 1], ws[1..][k][0])
    {
      assert ws[1..][k] == ws[k + 1] && ws[1..][k - 1] == ws[k];
    }
  }

  /** The characters after the first word start with the second word. */
  lemma RestOfWords(ws: seq<seq<Bytes>>)
    requires |ws| > 1 && ws[1] != []
    ensures Flatten(ws[1..]) != [] && Flatten(ws[1..])[0] == ws[1][0]
  {
    assert ws[1..][0] == ws[1] && ws[1..][1..] == ws[2..];
  }

  /** A closed word in front of characters is their first word. */
  lemma WordsOfCons(kind: Bytes -> Kind, w: seq<Bytes>, r: seq<Bytes>)
    requires WordShape(kind, w)
    requires r != [] ==> Closed(kind, w, r[0])
    ensures WordsOf(kind, w + r) == [w] + WordsOf(kind, r)
  {
    FirstWordOf(kind, w, r);
    var cs := w + r;
    assert cs[..|w|] == w && cs[|w|..] == r;
  }

  /** Grouping the characters of a sequence of closed words gives those
      words back: with WordsTiles and WordsShapes this determines `to_word`
      uniquely. */
  lemma {:induction false} WordsOfWords(kind: Bytes -> Kind, ws: seq<seq<Bytes>>)
    requires AllShaped(kind, ws) && AllClosed(kind, ws)
    ensures WordsOf(kind, Flatten(ws)) == ws
  {
    if ws != [] {
      var w, u := ws[0], ws[1..];
      HeadTail(ws, []);
      FlattenCons(w, u);
      assert WordShape(kind, w);
      if |ws| > 1 {
        RestOfWords(ws);
      }
      WordsOfCons(kind, w, Flatten(u));
      ShapedClosedTail(kind, ws);
      WordsOfWords(kind, u);
    }
  }

  /** A word never mixes Japanese and non-Japanese characters: every
      character is Japanese exactly when the first one is. */
  lemma WordHomogeneous(kind: Bytes -> Kind, w: seq<Bytes>)
    requires WordShape(kind, w)
    ensures forall i :: 0 <= i < |w| ==>
      kind(w[i]).IsJapanese() == kind(w[0]).IsJapanese()
  {
    var a := Anchor(kind, w[0]);
    var j: nat :| SplitAt(kind, a, w[1..], j);
    forall i | 1 <= i < |w|
      ensures kind(w[i]).IsJapanese() == kind(w[0]).IsJapanese()
    {
      assert w[i] == w[1..][i - 1];
    }
  }

  /** Concatenating the `to_word` tokens gives back the input. */
  lemma ToWordTiles(enc: Encoding, s: Bytes)
    ensures Flatten(ToWord(enc, s)) == s
  {
    var ws := WordChars(enc, s);
    WordsTiles(Classifier(enc), ToChar(enc, NONE, s));
    ToCharTiles(enc, NONE, s);
    JoinEachFlatten(ws);
  }

  /** Joining the words one by one, starting with `w`. */
  lemma JoinEachCons(w: seq<Bytes>, ws: seq<seq<Bytes>>)
    ensures JoinEach([w] + ws) == [Flatten(w)] + JoinEach(ws)
  {
    var a, b := JoinEach([w] + ws), [Flatten(w)] + JoinEach(ws);
    forall k | 0 <= k < |a| ensures a[k] == b[k] {
      if k > 0 {
        assert ([w] + ws)[k] == ws[k - 1];
      }
    }
  }

  lemma {:induction false} JoinEachFlatten(ws: seq<seq<Bytes>>)
    ensures Flatten(JoinEach(ws)) == Flatten(Flatten(ws))
  {
    if ws != [] {
      JoinEachFlatten(ws[1..]);
      assert ws == [ws[0]] + ws[1..];
      JoinEachCons(ws[0], ws[1..]);
      FlattenCons(Flatten(ws[0]), JoinEach(ws[1..]));
      FlattenAppend(ws[0], Flatten(ws[1..]));
      assert Flatten(ws) == ws[0] + Flatten(ws[1..]);
    }
  }
}
