/**
 The envelopes `v2.kid.payload` that hold credential secrets, the keyring that opens them, and the
 unpadded base64 of their payload (RFC 4648, sections 4 and 5).
 */
module Envelope {
  import opened ByteCodes

  datatype Option<T> = None | Some(value: T)
  datatype Result<T> = Ok(value: T) | Err(reason: string)

  // ---------- Base64 without padding ----------

  type Sextet = n: nat | n < 64

  /** The URL-safe alphabet ends in "-_", the standard one in "+/". */
  datatype Alphabet = UrlSafe | Standard

  function Letter(a: Alphabet, n: Sextet): char {
    if n < 26 then 'A' + n as char
    else if n < 52 then 'a' + (n - 26) as char
    else if n < 62 then '0' + (n - 52) as char
    else if n == 62 then (if a == UrlSafe then '-' else '+')
    else (if a == UrlSafe then '_' else '/')
  }

  function SextetOf(a: Alphabet, c: char): Option<Sextet> {
    if 'A' <= c <= 'Z' then Some((c - 'A') as nat)
    else if 'a' <= c <= 'z' then Some((c - 'a') as nat + 26)
    else if '0' <= c <= '9' then Some((c - '0') as nat + 52)
    else if c == Letter(a, 62) then Some(62)
    else if c == Letter(a, 63) then Some(63)
    else None
  }

  const UPPER := "ABCDEFGHIJKLMNOPQRSTUVWXYZ"
  const LOWER := "abcdefghijklmnopqrstuvwxyz"
  const DIGITS := "0123456789"

  lemma LettersInOrder(n: nat)
    ensures n < 26 ==> UPPER[n] == 'A' + n as char && LOWER[n] == 'a' + n as char
    ensures n < 10 ==> DIGITS[n] == '0' + n as char
  {
  }

  /** The two alphabets of RFC 4648, letter by letter. */
  lemma AlphabetsOfRfc4648(n: Sextet)
    ensures Letter(UrlSafe, n) == (UPPER + LOWER + DIGITS + "-_")[n]
    ensures Letter(Standard, n) == (UPPER + LOWER + DIGITS + "+/")[n]
  {
    if n < 26 { LettersInOrder(n); } else if n < 52 { LettersInOrder(n - 26); } else if n < 62 { LettersInOrder(n - 52); }
  }

  lemma LetterIsRead(a: Alphabet, n: Sextet)
    ensures SextetOf(a, Letter(a, n)) == Some(n)
    ensures Letter(a, n) != '\r' && Letter(a, n) != '\n' && Letter(a, n) != '.'
  {
  }

  lemma Spelled(a: Alphabet, m: Sextet, n: Sextet, o: Sextet, p: Sextet)
    ensures Letters(a, [m, n, o, p]) == [Letter(a, m), Letter(a, n), Letter(a, o), Letter(a, p)]
  {
    assert [m, n, o, p][1..] == [n, o, p] && [n, o, p][1..] == [o, p] && [o, p][1..] == [p];
    assert Letters(a, [o, p]) == [Letter(a, o)] + Letters(a, [p]);
  }

  lemma {:induction false} LettersConcat(a: Alphabet, ms: seq<Sextet>, ns: seq<Sextet>)
    ensures Letters(a, ms + ns) == Letters(a, ms) + Letters(a, ns)
    decreases |ms|
  {
    if |ms| == 0 { assert ms + ns == ns; } else {
      LettersConcat(a, ms[1..], ns);
      assert (ms + ns)[1..] == ms[1..] + ns;
    }
  }

  function Letters(a: Alphabet, ns: seq<Sextet>): (s: string)
    ensures |s| == |ns|
  {
    if |ns| == 0 then "" else [Letter(a, ns[0])] + Letters(a, ns[1..])
  }

  /** The sextets of a text: three bytes make four, and one or two last bytes make two or three. */
  function Cut6(bytes: Bytes): seq<Sextet>
    decreases |bytes|
  {
    if |bytes| == 0 then []
    else if |bytes| == 1 then [bytes[0] / 4, bytes[0] % 4 * 16]
    else if |bytes| == 2 then [bytes[0] / 4, bytes[0] % 4 * 16 + bytes[1] / 16, bytes[1] % 16 * 4]
    else
      [bytes[0] / 4, bytes[0] % 4 * 16 + bytes[1] / 16, bytes[1] % 16 * 4 + bytes[2] / 64, bytes[2] % 64] + Cut6(bytes[3..])
  }

  function Encode(a: Alphabet, bytes: Bytes): string {
    Letters(a, Cut6(bytes))
  }

  /** Go's decoder skips line breaks anywhere. */
  function WithoutLineBreaks(s: string): (r: string)
    ensures forall c :: c in r ==> c != '\r' && c != '\n'
  {
    if |s| == 0 then ""
    else if s[0] == '\r' || s[0] == '\n' then
      WithoutLineBreaks(s[1..])
    else [s[0]] + WithoutLineBreaks(s[1..])
  }

  lemma {:induction false} NoLineBreaksToSkip(s: string)
    requires forall c :: c in s ==> c != '\r' && c != '\n'
    ensures WithoutLineBreaks(s) == s
  {
    if |s| > 0 {
      assert s[0] in s && forall c :: c in s[1..] ==> c in s;
      NoLineBreaksToSkip(s[1..]);
      assert s == [s[0]] + s[1..];
    }
  }

  function Sextets(a: Alphabet, s: string): Option<seq<Sextet>> {
    if |s| == 0 then Some([])
    else if SextetOf(a, s[0]).None? || Sextets(a, s[1..]).None? then None
    else Some([SextetOf(a, s[0]).value] + Sextets(a, s[1..]).value)
  }

  function First(m: Sextet, n: Sextet): Byte { m * 4 + n / 16 }
  function Second(n: Sextet, o: Sextet): Byte { n % 16 * 16 + o / 4 }
  function Third(o: Sextet, p: Sextet): Byte { o % 4 * 64 + p }

  /** Four sextets make three bytes; the unused low bits of a last, shorter group are ignored. */
  function Joined(s: seq<Sextet>): Option<Bytes>
    decreases |s|
  {
    if |s| == 0 then Some([])
    else if |s| == 1 then None
    else if |s| == 2 then Some([First(s[0], s[1])])
    else if |s| == 3 then Some([First(s[0], s[1]), Second(s[1], s[2])])
    else
      match Joined(s[4..])
      case Some(rest) => Some([First(s[0], s[1]), Second(s[1], s[2]), Third(s[2], s[3])] + rest)
      case None => None
  }

  function Decode(a: Alphabet, s: string): Option<Bytes> {
    match Sextets(a, WithoutLineBreaks(s))
    case Some(sextets) => Joined(sextets)
    case None => None
  }

  lemma {:induction false} SextetsConcat(a: Alphabet, s: string, t: string)
    requires Sextets(a, s).Some? && Sextets(a, t).Some?
    ensures Sextets(a, s + t).Some?
    ensures Sextets(a, s + t).value == Sextets(a, s).value + Sextets(a, t).value
    decreases |s|
  {
    if |s| == 0 {
      assert s + t == t;
    } else {
      SextetsConcat(a, s[1..], t);
      assert (s + t)[1..] == s[1..] + t && (s + t)[0] == s[0];
    }
  }

  lemma SextetsCons(a: Alphabet, n: Sextet, s: string)
    requires Sextets(a, s).Some?
    ensures Sextets(a, [Letter(a, n)] + s).Some?
    ensures Sextets(a, [Letter(a, n)] + s).value == [n] + Sextets(a, s).value
  {
    LetterIsRead(a, n);
    assert ([Letter(a, n)] + s)[1..] == s;
  }

  lemma {:induction false} EncodedLetters(a: Alphabet, ns: seq<Sextet>)
    ensures forall c :: c in Letters(a, ns) ==> c != '\r' && c != '\n' && c != '.'
    decreases |ns|
  {
    if |ns| > 0 {
      LetterIsRead(a, ns[0]);
      EncodedLetters(a, ns[1..]);
    }
  }

  lemma {:induction false} SextetsOfLetters(a: Alphabet, ns: seq<Sextet>)
    ensures Sextets(a, Letters(a, ns)).Some? && Sextets(a, Letters(a, ns)).value == ns
    decreases |ns|
  {
    if |ns| > 0 {
      SextetsOfLetters(a, ns[1..]);
      SextetsCons(a, ns[0], Letters(a, ns[1..]));
    }
  }

  /** The three bytes of a full group, cut into four sextets and put together again. */
  lemma GroupRoundTrip(x: Byte, y: Byte, z: Byte)
    ensures First(x / 4, x % 4 * 16 + y / 16) == x
    ensures Second(x % 4 * 16 + y / 16, y % 16 * 4 + z / 64) == y
    ensures Third(y % 16 * 4 + z / 64, z % 64) == z
  {
  }

  lemma {:induction false} CutAndJoined(bytes: Bytes)
    ensures Joined(Cut6(bytes)).Some? && Joined(Cut6(bytes)).value == bytes
    decreases |bytes|
  {
    if |bytes| == 1 {
      GroupRoundTrip(bytes[0], 0, 0);
    } else if |bytes| == 2 {
      GroupRoundTrip(bytes[0], bytes[1], 0);
    } else if |bytes| > 2 {
      CutAndJoined(bytes[3..]);
      GroupRoundTrip(bytes[0], bytes[1], bytes[2]);
      assert Cut6(bytes)[4..] == Cut6(bytes[3..]);
      assert bytes == [bytes[0], bytes[1], bytes[2]] + bytes[3..];
    }
  }

  lemma Base64RoundTrip(a: Alphabet, bytes: Bytes)
    ensures Decode(a, Encode(a, bytes)).Some? && Decode(a, Encode(a, bytes)).value == bytes
  {
    EncodedLetters(a, Cut6(bytes));
    NoLineBreaksToSkip(Encode(a, bytes));
    SextetsOfLetters(a, Cut6(bytes));
    CutAndJoined(bytes);
  }

  /** Test vectors of RFC 4648, section 10, without their padding. */
  lemma ShortVectorsOfRfc4648()
    ensures Encode(Standard, [0x66]) == "Zg"
    ensures Encode(Standard, [0x66, 0x6F]) == "Zm8"
    ensures Encode(Standard, [0x66, 0x6F, 0x6F]) == "Zm9v"
  {
    assert Cut6([0x66, 0x6F, 0x6F]) == [25, 38, 61, 47];
    Spelled(Standard, 25, 38, 61, 47);
  }

  /** Three bytes become four letters, the high bits first, and the rest follows. */
  lemma FullGroup(a: Alphabet, x: Byte, y: Byte, z: Byte, rest: Bytes)
    ensures Encode(a, [x, y, z] + rest) ==
      [Letter(a, x / 4), Letter(a, x % 4 * 16 + y / 16), Letter(a, y % 16 * 4 + z / 64), Letter(a, z % 64)] + Encode(a, rest)
  {
    var group: seq<Sextet> := [x / 4, x % 4 * 16 + y / 16, y % 16 * 4 + z / 64, z % 64];
    assert ([x, y, z] + rest)[3..] == rest;
    assert Cut6([x, y, z] + rest) == group + Cut6(rest);
    LettersConcat(a, group, Cut6(rest));
    Spelled(a, group[0], group[1], group[2], group[3]);
  }

  // ---------- Authenticated encryption as an ideal pair ----------

  const NONCE_SIZE: nat := 12
  const KEY_SIZE: nat := 32

  /** seal and open take key, nonce, text and additional data. */
  datatype Aead = Aead(seal: (Bytes, Bytes, Bytes, string) -> Bytes, open: (Bytes, Bytes, Bytes, string) -> Option<Bytes>)

  ghost predicate Correct(aead: Aead) {
    forall key, nonce, text, data :: aead.open(key, nonce, aead.seal(key, nonce, text, data), data) == Some(text)
  }

  // ---------- Keyrings ----------

  datatype Entry = Entry(kid: string, keyBase64: string)
  datatype KeyringFile = KeyringFile(activeKid: string, keys: seq<Entry>)
  datatype Keyring = Keyring(active: string, keys: map<string, Bytes>)

  predicate KidLetter(c: char) {
    'A' <= c <= 'Z' || 'a' <= c <= 'z' || '0' <= c <= '9' || c == '_' || c == '-'
  }

  predicate ValidKid(kid: string) {
    1 <= |kid| <= 64 && forall i :: 0 <= i < |kid| ==> KidLetter(kid[i])
  }

  predicate GoodEntry(e: Entry) {
    ValidKid(e.kid) && Decode(Standard, e.keyBase64).Some? && |Decode(Standard, e.keyBase64).value| == KEY_SIZE
  }

  /** The kids of the first n entries. */
  function Kids(entries: seq<Entry>, n: nat): set<string>
    requires n <= |entries|
  {
    set j | 0 <= j < n :: entries[j].kid
  }

  lemma OneMoreKid(entries: seq<Entry>, n: nat)
    requires n < |entries|
    ensures Kids(entries, n + 1) == Kids(entries, n) + {entries[n].kid}
  {
  }

  /** An entry of a file: well formed, and its kid is not used by an earlier one. */
  predicate FitsAt(entries: seq<Entry>, i: int) {
    0 <= i < |entries| ==> GoodEntry(entries[i]) && entries[i].kid !in Kids(entries, i)
  }

  ghost predicate GoodFile(file: KeyringFile) {
    && ValidKid(file.activeKid)
    && (forall i :: FitsAt(file.keys, i))
    && file.activeKid in Kids(file.keys, |file.keys|)
  }

  predicate GoodKey(keys: map<string, Bytes>, kid: string) {
    kid in keys ==> ValidKid(kid) && |keys[kid]| == KEY_SIZE
  }

  ghost predicate GoodKeyring(k: Keyring) {
    k.active in k.keys && forall kid :: GoodKey(k.keys, kid)
  }

  /** The key of entry i is in the map, as its base64 text says. */
  predicate LoadedAt(keys: map<string, Bytes>, entries: seq<Entry>, i: int) {
    0 <= i < |entries| ==>
      && entries[i].kid in keys
      && Decode(Standard, entries[i].keyBase64).Some? && Decode(Standard, entries[i].keyBase64).value == keys[entries[i].kid]
  }

  /** The loop of FileKeyring.load. */
  method LoadKeys(entries: seq<Entry>) returns (r: Result<map<string, Bytes>>)
    ensures r.Ok? <==> forall i :: FitsAt(entries, i)
    ensures r.Ok? ==> r.value.Keys == Kids(entries, |entries|)
    ensures r.Ok? ==> (forall kid :: GoodKey(r.value, kid)) && forall i :: LoadedAt(r.value, entries, i)
  {
    var keys: map<string, Bytes> := map[];
    for i := 0 to |entries|
      invariant keys.Keys == Kids(entries, i)
      invariant forall j :: j < i ==> FitsAt(entries, j) && LoadedAt(keys, entries, j)
      invariant forall kid :: GoodKey(keys, kid)
    {
      var entry := entries[i];
      if !ValidKid(entry.kid) { assert !FitsAt(entries, i); return Err("invalid encryption keyring"); }
      if entry.kid in keys { assert !FitsAt(entries, i); return Err("duplicate kid"); }
      var key := Decode(Standard, entry.keyBase64);
      if key.None? || |key.value| != KEY_SIZE { assert !FitsAt(entries, i); return Err("kid must contain a 32-byte key"); }
      OneMoreKid(entries, i);
      ghost var before := keys;
      keys := keys[entry.kid := key.value];
      forall j | j < i ensures LoadedAt(keys, entries, j) { assert LoadedAt(before, entries, j); }
      forall kid ensures GoodKey(keys, kid) { assert GoodKey(before, kid); }
    }
    r := Ok(keys);
  }

  /** FileKeyring.load on the parsed file: exactly the good files, and exactly the keys they list. */
  method Load(file: KeyringFile) returns (r: Result<Keyring>)
    ensures r.Ok? <==> GoodFile(file)
    ensures r.Ok? ==> GoodKeyring(r.value) && r.value.active == file.activeKid
    ensures r.Ok? ==> r.value.keys.Keys == Kids(file.keys, |file.keys|)
    ensures r.Ok? ==> forall i :: LoadedAt(r.value.keys, file.keys, i)
  {
    if !ValidKid(file.activeKid) || |file.keys| == 0 { return Err("invalid encryption keyring"); }
    var keys := LoadKeys(file.keys);
    if keys.Err? { return Err(keys.reason); }
    if file.activeKid !in keys.value { return Err("active kid not found"); }
    r := Ok(Keyring(file.activeKid, keys.value));
  }

  // ---------- Envelopes ----------

  const VERSION := "v2"

  datatype Halves = Halves(before: string, after: string, found: bool)

  /** strings.Cut at the first dot. */
  function Cut(s: string): (h: Halves)
    ensures h.found ==> s == h.before + "." + h.after && '.' !in h.before
    ensures !h.found ==> h.before == s && '.' !in s
  {
    if |s| == 0 then Halves("", "", false)
    else if s[0] == '.' then Halves("", s[1..], true)
    else
      var rest := Cut(s[1..]);
      Halves([s[0]] + rest.before, rest.after, rest.found)
  }

  lemma {:induction false} CutAtFirstDot(a: string, b: string)
    requires '.' !in a
    ensures Cut(a + "." + b) == Halves(a, b, true)
    decreases |a|
  {
    if |a| == 0 {
      assert a + "." + b == "." + b;
    } else {
      CutAtFirstDot(a[1..], b);
      assert (a + "." + b)[1..] == a[1..] + "." + b;
      assert a == [a[0]] + a[1..];
    }
  }

  function Aad(kid: string): string {
    VERSION + ":" + kid
  }

  /** gcm.Seal behind its own nonce. */
  function Seal(aead: Aead, key: Bytes, kid: string, plaintext: Bytes, nonce: Bytes): Bytes {
    nonce + aead.seal(key, nonce, plaintext, Aad(kid))
  }

  function Open(aead: Aead, key: Bytes, kid: string, data: Bytes): Result<Bytes> {
    if |data| < NONCE_SIZE then Err("ciphertext too short")
    else
      match aead.open(key, data[..NONCE_SIZE], data[NONCE_SIZE..], Aad(kid))
      case None => Err("message authentication failed")
      case Some(plaintext) => Ok(plaintext)
  }

  lemma OpenSealed(aead: Aead, key: Bytes, kid: string, plaintext: Bytes, nonce: Bytes)
    requires Correct(aead) && |nonce| == NONCE_SIZE
    ensures Open(aead, key, kid, Seal(aead, key, kid, plaintext, nonce)) == Ok(plaintext)
  {
    var sealed := aead.seal(key, nonce, plaintext, Aad(kid));
    assert (nonce + sealed)[..NONCE_SIZE] == nonce && (nonce + sealed)[NONCE_SIZE..] == sealed;
    assert aead.open(key, nonce, sealed, Aad(kid)) == Some(plaintext);
  }

  function EncryptString(aead: Aead, keyring: Keyring, plaintext: Bytes, nonce: Bytes): string
    requires keyring.active in keyring.keys
  {
    var kid := keyring.active;
    VERSION + "." + kid + "." + Encode(UrlSafe, Seal(aead, keyring.keys[kid], kid, plaintext, nonce))
  }

  function DecryptString(aead: Aead, keyring: Keyring, encoded: string): Result<Bytes> {
    var head := Cut(encoded);
    if !head.found || head.before != VERSION then Err("invalid encryption keyring")
    else
      var tail := Cut(head.after);
      if !tail.found || tail.before == "" then Err("invalid encryption keyring")
      else if tail.before !in keyring.keys then Err("kid not found")
      else
        match Decode(UrlSafe, tail.after)
        case None => Err("illegal base64 data")
        case Some(data) => Open(aead, keyring.keys[tail.before], tail.before, data)
  }

  function NeedsReencryption(keyring: Keyring, encoded: string): Result<bool> {
    var head := Cut(encoded);
    if !head.found then Err("invalid encryption keyring")
    else
      var tail := Cut(head.after);
      if !tail.found || tail.before == "" then Err("invalid encryption keyring")
      else Ok(tail.before != keyring.active)
  }

  function Payload(aead: Aead, keyring: Keyring, plaintext: Bytes, nonce: Bytes): string
    requires keyring.active in keyring.keys
  {
    Encode(UrlSafe, Seal(aead, keyring.keys[keyring.active], keyring.active, plaintext, nonce))
  }

  /** Where the dots of an envelope are. */
  lemma EnvelopeParts(aead: Aead, keyring: Keyring, plaintext: Bytes, nonce: Bytes)
    requires GoodKeyring(keyring)
    ensures var head := Cut(EncryptString(aead, keyring, plaintext, nonce));
      && head.found && head.before == VERSION
      && Cut(head.after) == Halves(keyring.active, Payload(aead, keyring, plaintext, nonce), true)
  {
    var kid := keyring.active;
    var payload := Payload(aead, keyring, plaintext, nonce);
    assert GoodKey(keyring.keys, kid);
    assert '.' !in kid by { forall i | 0 <= i < |kid| ensures kid[i] != '.' { assert KidLetter(kid[i]); } }
    assert EncryptString(aead, keyring, plaintext, nonce) == VERSION + "." + (kid + "." + payload);
    CutAtFirstDot(VERSION, kid + "." + payload);
    CutAtFirstDot(kid, payload);
  }

  /**
   Any later keyring that still maps the kid to the same key opens the envelope, whichever kid is active
   by then; and it asks for re-encryption exactly when its active kid is another one.
   */
  lemma EnvelopeRoundTrip(aead: Aead, sealing: Keyring, opening: Keyring, plaintext: Bytes, nonce: Bytes)
    requires Correct(aead) && GoodKeyring(sealing) && |nonce| == NONCE_SIZE
    requires sealing.active in opening.keys && opening.keys[sealing.active] == sealing.keys[sealing.active]
    ensures DecryptString(aead, opening, EncryptString(aead, sealing, plaintext, nonce)) == Ok(plaintext)
    ensures NeedsReencryption(opening, EncryptString(aead, sealing, plaintext, nonce)) == Ok(sealing.active != opening.active)
  {
    var kid := sealing.active;
    EnvelopeParts(aead, sealing, plaintext, nonce);
    Base64RoundTrip(UrlSafe, Seal(aead, sealing.keys[kid], kid, plaintext, nonce));
    assert GoodKey(sealing.keys, kid);
    OpenSealed(aead, sealing.keys[kid], kid, plaintext, nonce);
  }

  /** The keyring of an accepted file seals and opens every plaintext, and the result needs no re-encryption. */
  lemma AcceptedKeyringRoundTrip(aead: Aead, keyring: Keyring, plaintext: Bytes, nonce: Bytes)
    requires Correct(aead) && GoodKeyring(keyring) && |nonce| == NONCE_SIZE
    ensures DecryptString(aead, keyring, EncryptString(aead, keyring, plaintext, nonce)) == Ok(plaintext)
    ensures NeedsReencryption(keyring, EncryptString(aead, keyring, plaintext, nonce)) == Ok(false)
  {
    EnvelopeRoundTrip(aead, keyring, keyring, plaintext, nonce);
  }

  /** Authenticity: what was sealed under some additional data does not open under any other. */
  ghost predicate BindsData(aead: Aead) {
    forall key, nonce, text, data, other ::
      data != other ==> aead.open(key, nonce, aead.seal(key, nonce, text, data), other) == None
  }

  /** The kid is part of the additional data: relabelled to another kid, even one with the same key, an envelope is refused. */
  lemma RelabelledIsRefused(aead: Aead, sealing: Keyring, opening: Keyring, kid: string, plaintext: Bytes, nonce: Bytes)
    requires BindsData(aead) && GoodKeyring(sealing) && GoodKeyring(opening) && |nonce| == NONCE_SIZE
    requires kid in opening.keys && kid != sealing.active && opening.keys[kid] == sealing.keys[sealing.active]
    ensures DecryptString(aead, opening, VERSION + "." + kid + "." + Payload(aead, sealing, plaintext, nonce)).Err?
  {
    var key, payload := sealing.keys[sealing.active], Payload(aead, sealing, plaintext, nonce);
    assert GoodKey(opening.keys, kid);
    assert '.' !in kid by { forall i | 0 <= i < |kid| ensures kid[i] != '.' { assert KidLetter(kid[i]); } }
    assert VERSION + "." + kid + "." + payload == VERSION + "." + (kid + "." + payload);
    CutAtFirstDot(VERSION, kid + "." + payload);
    CutAtFirstDot(kid, payload);
    Base64RoundTrip(UrlSafe, Seal(aead, key, sealing.active, plaintext, nonce));
    OtherKidsDataDiffers(kid, sealing.active);
    var sealed := aead.seal(key, nonce, plaintext, Aad(sealing.active));
    assert (nonce + sealed)[..NONCE_SIZE] == nonce && (nonce + sealed)[NONCE_SIZE..] == sealed;
    assert aead.open(key, nonce, sealed, Aad(kid)) == None;
  }

  lemma OtherKidsDataDiffers(kid: string, other: string)
    requires kid != other
    ensures Aad(kid) != Aad(other)
  {
    assert Aad(kid)[|VERSION + ":"|..] == kid && Aad(other)[|VERSION + ":"|..] == other;
  }

  /** Once the kid is gone from the keyring, the envelope is lost. */
  lemma DroppedKidIsRefused(aead: Aead, sealing: Keyring, opening: Keyring, plaintext: Bytes, nonce: Bytes)
    requires GoodKeyring(sealing) && sealing.active !in opening.keys
    ensures DecryptString(aead, opening, EncryptString(aead, sealing, plaintext, nonce)).Err?
  {
    EnvelopeParts(aead, sealing, plaintext, nonce);
  }

}
