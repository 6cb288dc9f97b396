/**
 The bytes artifactAAD hashes: every part after a 4-byte length. Unlike the 8-byte prefix of the
 operation fingerprints, four bytes do not hold every length.
 */
module ArtifactAad {
  import opened ByteCodes
  import Envelope

  const LENGTH_BYTES: nat := 4
  const UINT32_SPAN: nat := 0x1_0000_0000

  lemma SpanOfLength()
    ensures Span(LENGTH_BYTES) == UINT32_SPAN
  {
    assert Span(2) == 65536;
  }

  function Encoding(parts: seq<Bytes>): Bytes {
    if |parts| == 0 then [] else Prefixed(parts[0], LENGTH_BYTES) + Encoding(parts[1..])
  }

  method ArtifactAAD(parts: seq<Bytes>) returns (hashed: Bytes)
    ensures hashed == Encoding(parts)
  {
    var digest := new Digest();
    for i := 0 to |parts|
      invariant digest.written == Encoding(parts[..i])
    {
      digest.Write(BigEndian(|parts[i]|, LENGTH_BYTES));
      digest.Write(parts[i]);
      EncodingAppend(parts[..i], parts[i]);
      assert parts[..i + 1] == parts[..i] + [parts[i]];
    }
    assert parts[..|parts|] == parts;
    hashed := digest.written;
  }

  lemma {:induction false} EncodingAppend(parts: seq<Bytes>, part: Bytes)
    ensures Encoding(parts + [part]) == Encoding(parts) + Prefixed(part, LENGTH_BYTES)
    decreases |parts|
  {
    if |parts| > 0 {
      EncodingAppend(parts[1..], part);
      assert (parts + [part])[1..] == parts[1..] + [part];
    } else {
      assert Encoding([part]) == Prefixed(part, LENGTH_BYTES) + Encoding([]);
    }
  }

  predicate AllShorter(parts: seq<Bytes>, limit: nat) {
    forall i :: 0 <= i < |parts| ==> |parts[i]| < limit
  }

  /** With every part shorter than 2^32 bytes the hashed bytes determine the parts and their number. */
  lemma {:induction false} EncodingInjective(xs: seq<Bytes>, ys: seq<Bytes>)
    requires AllShorter(xs, UINT32_SPAN) && AllShorter(ys, UINT32_SPAN) && Encoding(xs) == Encoding(ys)
    ensures xs == ys
    decreases |xs|
  {
    if |xs| == 0 || |ys| == 0 {
      assert |xs| > 0 ==> |Encoding(xs)| >= LENGTH_BYTES;
      assert |ys| > 0 ==> |Encoding(ys)| >= LENGTH_BYTES;
    } else {
      SpanOfLength();
      PrefixedSplits(xs[0], Encoding(xs[1..]), ys[0], Encoding(ys[1..]), LENGTH_BYTES);
      EncodingInjective(xs[1..], ys[1..]);
      assert xs == [xs[0]] + xs[1..] && ys == [ys[0]] + ys[1..];
    }
  }

  function Zeros(n: nat): (r: Bytes)
    ensures |r| == n && forall i :: 0 <= i < n ==> r[i] == 0
  {
    seq(n, _ => 0)
  }

  lemma {:induction false} ZeroLength(width: nat)
    ensures BigEndian(0, width) == Zeros(width)
  {
    if width > 0 { ZeroLength(width - 1); }
  }

  /** A length of 2^32 is written as zero. */
  lemma LengthWrapsToZero()
    ensures BigEndian(UINT32_SPAN, LENGTH_BYTES) == Zeros(LENGTH_BYTES)
  {
    assert UINT32_SPAN / 256 == 0x100_0000 && 0x100_0000 / 256 == 0x1_0000 && 0x1_0000 / 256 == 0x100;
    assert BigEndian(0x100, 1) == [0];
    assert BigEndian(0x1_0000, 2) == [0, 0];
    assert BigEndian(0x100_0000, 3) == [0, 0, 0];
  }

  // ---------- The lists the code hashes ----------

  /** What an artifact belongs to. */
  datatype Labels = Labels(binding: Bytes, account: Bytes, kind: Bytes, scope: Bytes)

  const VERSION_BYTES: Bytes := [118, 50]

  function KidBytes(kid: string): (r: Bytes)
    requires Envelope.ValidKid(kid)
    ensures |r| == |kid|
  {
    seq(|kid|, i requires 0 <= i < |kid| => LetterByte(kid[i]))
  }

  function LetterByte(c: char): Byte
    requires Envelope.KidLetter(c)
  {
    c as nat
  }

  lemma KidBytesInjective(kid: string, other: string)
    requires Envelope.ValidKid(kid) && Envelope.ValidKid(other) && KidBytes(kid) == KidBytes(other)
    ensures kid == other
  {
    forall i | 0 <= i < |kid| ensures kid[i] == other[i] {
      assert KidBytes(kid)[i] == LetterByte(kid[i]) && KidBytes(other)[i] == LetterByte(other[i]);
    }
  }

  /** EncryptArtifact and DecryptArtifact: the version, a kid of the keyring, and the four labels. */
  function HashedParts(kid: string, l: Labels): seq<Bytes>
    requires Envelope.ValidKid(kid)
  {
    [VERSION_BYTES, KidBytes(kid), l.binding, l.account, l.kind, l.scope]
  }

  predicate LabelsShorter(l: Labels, limit: nat) {
    |l.binding| < limit && |l.account| < limit && |l.kind| < limit && |l.scope| < limit
  }

  /** Under every kid, a binding of 2^32 zero bytes without an account hashes like an account of 2^32 zero bytes without a binding. */
  lemma LongLabelsCollide(kid: string, kind: Bytes, scope: Bytes)
    requires Envelope.ValidKid(kid)
    ensures var long := Zeros(UINT32_SPAN); var l := Labels(long, [], kind, scope); var m := Labels([], long, kind, scope);
      l != m && Encoding(HashedParts(kid, l)) == Encoding(HashedParts(kid, m))
  {
    var long := Zeros(UINT32_SPAN);
    var head, tail := [VERSION_BYTES, KidBytes(kid)], [kind, scope];
    ZeroLength(LENGTH_BYTES);
    LengthWrapsToZero();
    MiddleTwo(head, long, [], tail);
    MiddleTwo(head, [], long, tail);
    assert HashedParts(kid, Labels(long, [], kind, scope)) == head + [long, []] + tail;
    assert HashedParts(kid, Labels([], long, kind, scope)) == head + [[], long] + tail;
    assert Prefixed(long, LENGTH_BYTES) + Prefixed([], LENGTH_BYTES)
        == Prefixed([], LENGTH_BYTES) + Prefixed(long, LENGTH_BYTES);
    assert |long| == UINT32_SPAN;
  }

  lemma {:induction false} MiddleTwo(head: seq<Bytes>, a: Bytes, b: Bytes, tail: seq<Bytes>)
    ensures Encoding(head + [a, b] + tail)
         == Encoding(head) + ((Prefixed(a, LENGTH_BYTES) + Prefixed(b, LENGTH_BYTES)) + Encoding(tail))
    decreases |head|
  {
    if |head| == 0 {
      assert head + [a, b] + tail == [a, b] + tail;
      assert ([a, b] + tail)[1..] == [b] + tail;
      assert ([b] + tail)[1..] == tail;
    } else {
      assert (head + [a, b] + tail)[1..] == head[1..] + [a, b] + tail;
      MiddleTwo(head[1..], a, b, tail);
    }
  }

  /** No two artifacts with labels below the limit hash the same bytes, whatever their kids. */
  ghost predicate TellsApartBelow(limit: nat) {
    forall kid, other, l, m | Envelope.ValidKid(kid) && Envelope.ValidKid(other) ::
      (LabelsShorter(l, limit) && LabelsShorter(m, limit) && Encoding(HashedParts(kid, l)) == Encoding(HashedParts(other, m)))
      ==> (kid == other && l == m)
  }

  lemma ShortLabelsAreToldApart(kid: string, other: string, l: Labels, m: Labels)
    requires Envelope.ValidKid(kid) && Envelope.ValidKid(other)
    requires LabelsShorter(l, UINT32_SPAN) && LabelsShorter(m, UINT32_SPAN)
    requires Encoding(HashedParts(kid, l)) == Encoding(HashedParts(other, m))
    ensures kid == other && l == m
  {
    var xs, ys := HashedParts(kid, l), HashedParts(other, m);
    EncodingInjective(xs, ys);
    assert xs[1] == ys[1] && xs[2] == ys[2] && xs[3] == ys[3] && xs[4] == ys[4] && xs[5] == ys[5];
    KidBytesInjective(kid, other);
  }

  /** Over the lists the code hashes, the bytes tell all artifacts apart exactly up to labels of 2^32 - 1 bytes. */
  lemma ToldApartExactlyBelowFourGigabytes(limit: nat)
    ensures TellsApartBelow(limit) <==> limit <= UINT32_SPAN
  {
    if limit <= UINT32_SPAN {
      forall kid, other, l, m | Envelope.ValidKid(kid) && Envelope.ValidKid(other) && LabelsShorter(l, limit)
                                && LabelsShorter(m, limit) && Encoding(HashedParts(kid, l)) == Encoding(HashedParts(other, m))
        ensures kid == other && l == m
      {
        ShortLabelsAreToldApart(kid, other, l, m);
      }
    } else {
      assert Envelope.ValidKid("k");
      LongLabelsCollide("k", [], []);
      var long := Zeros(UINT32_SPAN);
      assert LabelsShorter(Labels(long, [], [], []), limit) && LabelsShorter(Labels([], long, [], []), limit);
    }
  }

}
