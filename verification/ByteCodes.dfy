/** Bytes, big-endian integers, and length-prefixed strings. */
module ByteCodes {

  type Byte = b: nat | b < 256
  type Bytes = seq<Byte>

  function Span(width: nat): (r: nat)
    ensures r > 0
  {
    if width == 0 then 1 else 256 * Span(width - 1)
  }

  /** The `width` low-order bytes of n, most significant first: what n does not fit is cut off. */
  function BigEndian(n: nat, width: nat): (r: Bytes)
    ensures |r| == width
  {
    if width == 0 then [] else BigEndian(n / 256, width - 1) + [n % 256]
  }

  function Value(bytes: Bytes): nat
    decreases |bytes|
  {
    if |bytes| == 0 then 0 else 256 * Value(bytes[..|bytes| - 1]) + bytes[|bytes| - 1]
  }

  lemma {:induction false} ValueOfBigEndian(n: nat, width: nat)
    requires n < Span(width)
    ensures Value(BigEndian(n, width)) == n
  {
    if width > 0 {
      ValueOfBigEndian(n / 256, width - 1);
      assert BigEndian(n, width)[..width - 1] == BigEndian(n / 256, width - 1);
    }
  }

  /** The most significant byte comes first. */
  lemma HighByteFirst()
    ensures BigEndian(0x01020304, 4) == [1, 2, 3, 4]
  {
    assert BigEndian(0x0102, 2) == [1, 2];
    assert BigEndian(0x010203, 3) == [1, 2, 3];
  }

  lemma BigEndianInjective(m: nat, n: nat, width: nat)
    requires m < Span(width) && n < Span(width) && BigEndian(m, width) == BigEndian(n, width)
    ensures m == n
  {
    ValueOfBigEndian(m, width);
    ValueOfBigEndian(n, width);
  }

  /** A string after its length. */
  function Prefixed(s: Bytes, width: nat): (r: Bytes)
    ensures |r| == width + |s|
  {
    BigEndian(|s|, width) + s
  }

  /** A prefix code: the encoded string can be split off whatever follows it. */
  lemma PrefixedSplits(s: Bytes, x: Bytes, t: Bytes, y: Bytes, width: nat)
    requires |s| < Span(width) && |t| < Span(width)
    requires Prefixed(s, width) + x == Prefixed(t, width) + y
    ensures s == t && x == y
  {
    var a, b := Prefixed(s, width) + x, Prefixed(t, width) + y;
    assert a[..width] == BigEndian(|s|, width);
    assert b[..width] == BigEndian(|t|, width);
    BigEndianInjective(|s|, |t|, width);
    assert a[width..width + |s|] == s;
    assert b[width..width + |t|] == t;
    assert a[width + |s|..] == x;
    assert b[width + |t|..] == y;
  }

  /** A hash in progress: what has been written to it, in order. */
  class Digest {
    var written: Bytes

    constructor()
      ensures written == []
    {
      written := [];
    }

    method Write(bytes: Bytes)
      modifies this
      ensures written == old(written) + bytes
    {
      written := written + bytes;
    }
  }

}
