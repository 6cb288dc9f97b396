/**
 The byte strings the operation fingerprints hash. Each method returns what it wrote to the digest;
 the lemmas say that no two different requests write the same bytes, within a format or across them.
 */
module Fingerprints {
  import opened ByteCodes

  const WORD: nat := 8
  const UINT64_SPAN: nat := 0x1_0000_0000_0000_0000

  type Word = n: nat | n < UINT64_SPAN

  /** A string whose length the 8-byte prefix can hold: every string of a real machine. */
  predicate Short(s: Bytes) {
    |s| < UINT64_SPAN
  }

  lemma SpanOfWord()
    ensures Span(WORD) == UINT64_SPAN
  {
    assert Span(4) == 0x1_0000_0000;
    assert Span(8) == 256 * (256 * (256 * (256 * Span(4))));
  }

  function Words(values: seq<Word>): (r: Bytes)
    ensures |r| == WORD * |values|
  {
    if |values| == 0 then [] else BigEndian(values[0], WORD) + Words(values[1..])
  }

  function OperationBytes(kind: Bytes, binding: Bytes, pre: Word, target: Word): Bytes {
    Prefixed(kind, WORD) + (Prefixed(binding, WORD) + Words([pre, target]))
  }

  /** The layout of the two formats that name a third string. */
  function NamedBytes(kind: Bytes, binding: Bytes, name: Bytes, values: seq<Word>): Bytes {
    Prefixed(kind, WORD) + (Prefixed(binding, WORD) + (Prefixed(name, WORD) + Words(values)))
  }

  function FenceBytes(kind: Bytes, binding: Bytes, consumer: Bytes, generation: Word,
                      grant: Word, owner: Word, consumerEpoch: Word, entry: Word): Bytes {
    NamedBytes(kind, binding, consumer, [generation, grant, owner, consumerEpoch, entry])
  }

  function ProfileBytes(kind: Bytes, binding: Bytes, profile: Bytes, generation: Word, revision: Word): Bytes {
    NamedBytes(kind, binding, profile, [generation, revision])
  }

  method WriteString(digest: Digest, value: Bytes)
    modifies digest
    ensures digest.written == old(digest.written) + Prefixed(value, WORD)
  {
    digest.Write(BigEndian(|value|, WORD));
    digest.Write(value);
  }

  /** The loop the two longer formats share. */
  method WriteWords(digest: Digest, values: seq<Word>)
    modifies digest
    ensures digest.written == old(digest.written) + Words(values)
  {
    var start := digest.written;
    for i := 0 to |values|
      invariant digest.written == start + Words(values[..i])
    {
      digest.Write(BigEndian(values[i], WORD));
      WordsAppend(values[..i], values[i]);
      assert values[..i + 1] == values[..i] + [values[i]];
    }
    assert values[..|values|] == values;
  }

  lemma {:induction false} WordsAppend(values: seq<Word>, value: Word)
    ensures Words(values + [value]) == Words(values) + BigEndian(value, WORD)
    decreases |values|
  {
    if |values| > 0 {
      WordsAppend(values[1..], value);
      assert (values + [value])[1..] == values[1..] + [value];
    } else {
      assert Words([value]) == BigEndian(value, WORD) + Words([]);
    }
  }

  lemma Regroup(a: Bytes, b: Bytes, c: Bytes, d: Bytes)
    ensures [] + a + b + c + d == a + (b + (c + d))
    ensures [] + a + b + c == a + (b + c)
  {
  }

  lemma WordsOfTwo(m: Word, n: Word)
    ensures Words([m, n]) == BigEndian(m, WORD) + BigEndian(n, WORD)
  {
    assert [m, n][1..] == [n];
    assert Words([n]) == BigEndian(n, WORD) + Words([]);
  }

  lemma FirstWord(value: Word, values: seq<Word>)
    ensures Words([value] + values) == BigEndian(value, WORD) + Words(values)
  {
    assert ([value] + values)[1..] == values;
  }

  lemma InOneRow(a: Bytes, b: Bytes, c: Bytes, d: Bytes)
    ensures a + (b + (c + d)) == a + b + c + d
  {
  }

  lemma WordsOfFive(a: Word, b: Word, c: Word, d: Word, e: Word)
    ensures Words([a, b, c, d, e]) ==
      BigEndian(a, WORD) + BigEndian(b, WORD) + BigEndian(c, WORD) + (BigEndian(d, WORD) + BigEndian(e, WORD))
  {
    FirstWord(a, [b, c, d, e]);
    FirstWord(b, [c, d, e]);
    FirstWord(c, [d, e]);
    WordsOfTwo(d, e);
    assert [a] + [b, c, d, e] == [a, b, c, d, e] && [b] + [c, d, e] == [b, c, d, e] && [c] + [d, e] == [c, d, e];
    InOneRow(BigEndian(a, WORD), BigEndian(b, WORD), BigEndian(c, WORD), BigEndian(d, WORD) + BigEndian(e, WORD));
  }

  method Fingerprint(kind: Bytes, binding: Bytes, pre: Word, target: Word) returns (hashed: Bytes)
    ensures hashed == OperationBytes(kind, binding, pre, target)
    ensures hashed == BigEndian(|kind|, 8) + kind + BigEndian(|binding|, 8) + binding + BigEndian(pre, 8) + BigEndian(target, 8)
  {
    var digest := new Digest();
    WriteString(digest, kind);
    WriteString(digest, binding);
    var generations := BigEndian(pre, WORD) + BigEndian(target, WORD);
    digest.Write(generations);
    WordsOfTwo(pre, target);
    Regroup(Prefixed(kind, WORD), Prefixed(binding, WORD), generations, []);
    hashed := digest.written;
  }

  method AuthorizationFenceFingerprint(kind: Bytes, binding: Bytes, consumer: Bytes, generation: Word,
                                       grant: Word, owner: Word, consumerEpoch: Word, entry: Word)
    returns (hashed: Bytes)
    ensures hashed == FenceBytes(kind, binding, consumer, generation, grant, owner, consumerEpoch, entry)
    ensures hashed == BigEndian(|kind|, 8) + kind + BigEndian(|binding|, 8) + binding + BigEndian(|consumer|, 8) + consumer
      + BigEndian(generation, 8) + BigEndian(grant, 8) + BigEndian(owner, 8) + BigEndian(consumerEpoch, 8) + BigEndian(entry, 8)
  {
    var digest := new Digest();
    WriteString(digest, kind);
    WriteString(digest, binding);
    WriteString(digest, consumer);
    WriteWords(digest, [generation, grant, owner, consumerEpoch, entry]);
    Regroup(Prefixed(kind, WORD), Prefixed(binding, WORD), Prefixed(consumer, WORD),
            Words([generation, grant, owner, consumerEpoch, entry]));
    WordsOfFive(generation, grant, owner, consumerEpoch, entry);
    hashed := digest.written;
  }

  method PrimaryProfileFingerprint(kind: Bytes, binding: Bytes, profile: Bytes, generation: Word, revision: Word)
    returns (hashed: Bytes)
    ensures hashed == ProfileBytes(kind, binding, profile, generation, revision)
    ensures hashed == BigEndian(|kind|, 8) + kind + BigEndian(|binding|, 8) + binding + BigEndian(|profile|, 8) + profile
      + BigEndian(generation, 8) + BigEndian(revision, 8)
  {
    var digest := new Digest();
    WriteString(digest, kind);
    WriteString(digest, binding);
    WriteString(digest, profile);
    WriteWords(digest, [generation, revision]);
    Regroup(Prefixed(kind, WORD), Prefixed(binding, WORD), Prefixed(profile, WORD), Words([generation, revision]));
    hashed := digest.written;
  }

  lemma {:induction false} WordsInjective(xs: seq<Word>, ys: seq<Word>)
    requires Words(xs) == Words(ys)
    ensures xs == ys
    decreases |xs|
  {
    if |xs| > 0 {
      SpanOfWord();
      assert |ys| == |xs|;
      assert Words(xs)[..WORD] == BigEndian(xs[0], WORD) && Words(ys)[..WORD] == BigEndian(ys[0], WORD);
      assert Words(xs)[WORD..] == Words(xs[1..]) && Words(ys)[WORD..] == Words(ys[1..]);
      BigEndianInjective(xs[0], ys[0], WORD);
      WordsInjective(xs[1..], ys[1..]);
      assert xs == [xs[0]] + xs[1..] && ys == [ys[0]] + ys[1..];
    }
  }

  lemma OperationBytesInjective(k: Bytes, b: Bytes, p: Word, t: Word, k': Bytes, b': Bytes, p': Word, t': Word)
    requires Short(k) && Short(b) && Short(k') && Short(b')
    requires OperationBytes(k, b, p, t) == OperationBytes(k', b', p', t')
    ensures k == k' && b == b' && p == p' && t == t'
  {
    SpanOfWord();
    PrefixedSplits(k, Prefixed(b, WORD) + Words([p, t]), k', Prefixed(b', WORD) + Words([p', t']), WORD);
    PrefixedSplits(b, Words([p, t]), b', Words([p', t']), WORD);
    WordsInjective([p, t], [p', t']);
    assert [p, t][0] == [p', t'][0] && [p, t][1] == [p', t'][1];
  }

  /** Any two named encodings, of the same or of different numbers of words. */
  lemma NamedBytesInjective(k: Bytes, b: Bytes, n: Bytes, xs: seq<Word>, k': Bytes, b': Bytes, n': Bytes, ys: seq<Word>)
    requires Short(k) && Short(b) && Short(n) && Short(k') && Short(b') && Short(n')
    requires NamedBytes(k, b, n, xs) == NamedBytes(k', b', n', ys)
    ensures k == k' && b == b' && n == n' && xs == ys
  {
    SpanOfWord();
    var rest, rest' := Prefixed(n, WORD) + Words(xs), Prefixed(n', WORD) + Words(ys);
    PrefixedSplits(k, Prefixed(b, WORD) + rest, k', Prefixed(b', WORD) + rest', WORD);
    PrefixedSplits(b, rest, b', rest', WORD);
    PrefixedSplits(n, Words(xs), n', Words(ys), WORD);
    WordsInjective(xs, ys);
  }

  /** The two-string format never collides with a format that names a third string. */
  lemma OperationIsNotNamed(k: Bytes, b: Bytes, p: Word, t: Word, k': Bytes, b': Bytes, n: Bytes, xs: seq<Word>)
    requires Short(k) && Short(b) && Short(k') && Short(b') && |xs| >= 2
    ensures OperationBytes(k, b, p, t) != NamedBytes(k', b', n, xs)
  {
    if OperationBytes(k, b, p, t) == NamedBytes(k', b', n, xs) {
      SpanOfWord();
      var rest := Prefixed(n, WORD) + Words(xs);
      PrefixedSplits(k, Prefixed(b, WORD) + Words([p, t]), k', Prefixed(b', WORD) + rest, WORD);
      PrefixedSplits(b, Words([p, t]), b', rest, WORD);
    }
  }

  /** One request of any of the three formats. */
  datatype Request =
    | Operation(kind: Bytes, binding: Bytes, pre: Word, target: Word)
    | FenceRequest(kind: Bytes, binding: Bytes, consumer: Bytes, generation: Word,
                   grant: Word, owner: Word, consumerEpoch: Word, entry: Word)
    | ProfileRequest(kind: Bytes, binding: Bytes, profile: Bytes, generation: Word, revision: Word)

  function Hashed(r: Request): Bytes {
    match r
    case Operation(k, b, p, t) => OperationBytes(k, b, p, t)
    case FenceRequest(k, b, c, g, grant, owner, consumerEpoch, entry) =>
      FenceBytes(k, b, c, g, grant, owner, consumerEpoch, entry)
    case ProfileRequest(k, b, p, g, revision) => ProfileBytes(k, b, p, g, revision)
  }

  predicate ShortStrings(r: Request) {
    match r
    case Operation(k, b, _, _) => Short(k) && Short(b)
    case FenceRequest(k, b, c, _, _, _, _, _) => Short(k) && Short(b) && Short(c)
    case ProfileRequest(k, b, p, _, _) => Short(k) && Short(b) && Short(p)
  }

  lemma SameFence(r: Request, s: Request)
    requires r.FenceRequest? && s.FenceRequest?
    requires r.kind == s.kind && r.binding == s.binding && r.consumer == s.consumer
    requires [r.generation, r.grant, r.owner, r.consumerEpoch, r.entry]
             == [s.generation, s.grant, s.owner, s.consumerEpoch, s.entry]
    ensures r == s
  {
    var xs := [r.generation, r.grant, r.owner, r.consumerEpoch, r.entry];
    var ys := [s.generation, s.grant, s.owner, s.consumerEpoch, s.entry];
    assert xs[0] == ys[0] && xs[1] == ys[1] && xs[2] == ys[2] && xs[3] == ys[3] && xs[4] == ys[4];
  }

  /** Joint injectivity: the hashed bytes determine the format and every argument. */
  lemma FingerprintsAreJointlyInjective(r: Request, s: Request)
    requires ShortStrings(r) && ShortStrings(s) && Hashed(r) == Hashed(s)
    ensures r == s
  {
    match (r, s)
    case (Operation(k, b, p, t), Operation(k', b', p', t')) => OperationBytesInjective(k, b, p, t, k', b', p', t');
    case (Operation(k, b, p, t), FenceRequest(k', b', n, g, v, w, x, y)) =>
      OperationIsNotNamed(k, b, p, t, k', b', n, [g, v, w, x, y]);
    case (Operation(k, b, p, t), ProfileRequest(k', b', n, g, v)) => OperationIsNotNamed(k, b, p, t, k', b', n, [g, v]);
    case (FenceRequest(k', b', n, g, v, w, x, y), Operation(k, b, p, t)) =>
      OperationIsNotNamed(k, b, p, t, k', b', n, [g, v, w, x, y]);
    case (ProfileRequest(k', b', n, g, v), Operation(k, b, p, t)) => OperationIsNotNamed(k, b, p, t, k', b', n, [g, v]);
    case (FenceRequest(k, b, n, g, v, w, x, y), FenceRequest(k', b', n', g', v', w', x', y')) =>
      NamedBytesInjective(k, b, n, [g, v, w, x, y], k', b', n', [g', v', w', x', y']);
      SameFence(r, s);
    case (FenceRequest(k, b, n, g, v, w, x, y), ProfileRequest(k', b', n', g', v')) =>
      NamedBytesInjective(k, b, n, [g, v, w, x, y], k', b', n', [g', v']);
    case (ProfileRequest(k, b, n, g, v), FenceRequest(k', b', n', g', v', w', x', y')) =>
      NamedBytesInjective(k, b, n, [g, v], k', b', n', [g', v', w', x', y']);
    case (ProfileRequest(k, b, n, g, v), ProfileRequest(k', b', n', g', v')) =>
      NamedBytesInjective(k, b, n, [g, v], k', b', n', [g', v']);
      assert [g, v][0] == [g', v'][0] && [g, v][1] == [g', v'][1];
  }

}
