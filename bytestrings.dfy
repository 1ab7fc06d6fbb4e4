/** Byte strings, the optional values the detector returns for a nil
    input, and the concatenation of a sequence of tokens. */
module ByteStrings {

  /** One octet of the analysed text. */
  type Byte = b: int | 0 <= b < 256

  type Bytes = seq<Byte>

  const CrByte: Byte := 0x0D
  const LfByte: Byte := 0x0A
  const TabByte: Byte := 0x09
  const SpaceByte: Byte := 0x20

  /** A value that may be absent, as Ruby's nil. */
  datatype Option<+T> = None | Some(value: T)

  /** Concatenation of the tokens of a segmentation, in order. */
  function Flatten<T>(ts: seq<seq<T>>): seq<T>
  {
    if ts == [] then [] else ts[0] + Flatten(ts[1..])
  }

  /** A non-empty sequence is its head followed by its tail, and
      appending after it appends after the tail. */
  lemma HeadTail<T>(cs: seq<T>, x: seq<T>)
    requires cs != []
    ensures cs == [cs[0]] + cs[1..]
    ensures cs + x == [cs[0]] + (cs[1..] + x)
  {
    assert cs == [cs[0]] + cs[1..];
  }

  lemma AppendAssoc<T>(a: seq<T>, b: seq<T>, c: seq<T>)
    ensures (a + b) + c == a + (b + c)
  {
  }

  /** Flattening a sequence that starts with `t`. */
  lemma FlattenCons<T>(t: seq<T>, u: seq<seq<T>>)
    ensures Flatten([t] + u) == t + Flatten(u)
  {
    assert ([t] + u)[0] == t && ([t] + u)[1..] == u;
  }

  lemma {:induction false} FlattenAppend<T>(a: seq<seq<T>>, b: seq<seq<T>>)
    ensures Flatten(a + b) == Flatten(a) + Flatten(b)
  {
    if a == [] {
      assert a + b == b;
    } else {
      assert (a + b)[1..] == a[1..] + b;
      FlattenAppend(a[1..], b);
    }
  }
}
