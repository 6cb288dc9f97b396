/**
 The re-encryption sweep: keyset pagination over the credential rows, and a compare-and-swap for each
 envelope that is not under the active key. Other writers run between any two repository calls.
 */
module Reencryption {
  import opened ByteCodes
  import opened Envelope
  import opened TextOrder

  const BATCH_SIZE: nat := 100

  type Rows = map<string, string> // binding reference to credential blob

  datatype Item = Item(ref: string, blob: string)

  /** Everything after `after` and before `ref` in the rows is nothing. */
  ghost predicate NextAfter(rows: Rows, after: string, ref: string) {
    ref in rows && Less(after, ref) && forall r :: r in rows && Less(after, r) ==> r == ref || Less(ref, r)
  }

  ghost predicate NothingAfter(rows: Rows, after: string) {
    forall r :: r in rows ==> !Less(after, r)
  }

  /** The batch lists, without a gap, the rows that follow `after`. */
  ghost predicate Follows(rows: Rows, after: string, batch: seq<Item>)
    decreases |batch|
  {
    |batch| == 0 ||
    (NextAfter(rows, after, batch[0].ref) && rows[batch[0].ref] == batch[0].blob
     && Follows(rows, batch[0].ref, batch[1..]))
  }

  function LastRef(after: string, batch: seq<Item>): string {
    if |batch| == 0 then after else batch[|batch| - 1].ref
  }

  lemma {:induction false} FollowsAppend(rows: Rows, after: string, batch: seq<Item>, item: Item)
    requires Follows(rows, after, batch)
    requires NextAfter(rows, LastRef(after, batch), item.ref) && rows[item.ref] == item.blob
    ensures Follows(rows, after, batch + [item])
    decreases |batch|
  {
    if |batch| > 0 {
      assert LastRef(batch[0].ref, batch[1..]) == LastRef(after, batch);
      FollowsAppend(rows, batch[0].ref, batch[1..], item);
      assert (batch + [item])[1..] == batch[1..] + [item];
    }
  }

  // ---------- Plaintexts and progress ----------

  function Plain(aead: Aead, keyring: Keyring, blob: string): Option<Bytes> {
    match DecryptString(aead, keyring, blob)
    case Ok(plaintext) => Some(plaintext)
    case Err(_) => None
  }

  predicate Needs(keyring: Keyring, blob: string) {
    NeedsReencryption(keyring, blob) == Ok(true)
  }

  predicate UnderActiveKey(keyring: Keyring, blob: string) {
    NeedsReencryption(keyring, blob) == Ok(false)
  }

  /** The sweep can deal with the blob: it is under the active key, or it opens and can be sealed again. */
  predicate Readable(aead: Aead, keyring: Keyring, blob: string) {
    UnderActiveKey(keyring, blob) || (Needs(keyring, blob) && Plain(aead, keyring, blob).Some?)
  }

  predicate AllReadable(aead: Aead, keyring: Keyring, rows: Rows) {
    forall r :: r in rows && r != "" ==> Readable(aead, keyring, rows[r])
  }

  /** The rows the sweep has passed. */
  predicate Passed(ref: string, cursor: string) {
    ref != "" && !Less(cursor, ref)
  }

  function PassedNeedy(rows: Rows, keyring: Keyring, cursor: string): set<string> {
    set r | r in rows && Passed(r, cursor) && Needs(keyring, rows[r])
  }

  lemma NothingPassedAtStart(rows: Rows, keyring: Keyring)
    ensures PassedNeedy(rows, keyring, "") == {}
  {
  }

  lemma PassedTheNext(rows: Rows, cursor: string, ref: string, r: string)
    requires NextAfter(rows, cursor, ref) && r in rows
    ensures Passed(r, ref) <==> Passed(r, cursor) || r == ref
  {
    LessTotal(r, ref);
    LessTotal(ref, cursor);
    if Less(r, ref) && Less(cursor, r) { assert false; }
    if Less(ref, r) && !Less(cursor, r) {
      LessTotal(cursor, r);
      if cursor != r { LessTransitive(ref, r, cursor); }
    }
  }

  lemma PassedNeedyGrows(rows: Rows, keyring: Keyring, cursor: string, ref: string)
    requires NextAfter(rows, cursor, ref)
    ensures PassedNeedy(rows, keyring, ref)
         == PassedNeedy(rows, keyring, cursor) + (if Needs(keyring, rows[ref]) then {ref} else {})
    ensures ref !in PassedNeedy(rows, keyring, cursor)
  {
    forall r | r in rows ensures Passed(r, ref) <==> Passed(r, cursor) || r == ref {
      PassedTheNext(rows, cursor, ref, r);
    }
  }

  // ---------- The sweep ----------

  function Changed(before: Rows, after: Rows): (refs: set<string>)
    ensures forall r :: r !in refs ==> (r in after <==> r in before) && (r in after ==> after[r] == before[r])
    ensures refs == {} ==> after == before
  {
    set r | r in before.Keys + after.Keys && (r !in before || r !in after || before[r] != after[r])
  }

  class CredentialReencryption {
    const aead: Aead
    const keyring: Keyring
    /** The references other writers ever use while the sweep runs: any finite set. */
    const universe: set<string>
    var rows: Rows
    /** For every row, the plaintext its last writer other than the sweep stored. */
    ghost var written: map<string, Option<Bytes>>
    /** The rows another writer has changed since the sweep started. */
    ghost var touched: set<string>
    /** How many repository calls have failed. */
    var faults: nat

    ghost predicate Valid()
      reads this
    {
      && Correct(aead) && GoodKeyring(keyring)
      && rows.Keys <= universe && written.Keys == rows.Keys
      && forall r :: r in rows ==> Plain(aead, keyring, rows[r]) == written[r]
    }

    constructor(aead: Aead, keyring: Keyring, rows: Rows, universe: set<string>)
      requires Correct(aead) && GoodKeyring(keyring) && rows.Keys <= universe
      ensures Valid() && this.aead == aead && this.keyring == keyring && this.rows == rows && this.universe == universe
    {
      this.aead, this.keyring, this.rows, this.universe := aead, keyring, rows, universe;
      written := map r | r in rows :: Plain(aead, keyring, rows[r]);
      touched, faults := {}, 0;
    }

    /** Whether a repository call goes through. */
    method GoesThrough() returns (ok: bool)
      modifies this`faults
      ensures faults == old(faults) + if ok then 0 else 1
    {
      ok :| true;
      if !ok { faults := faults + 1; }
    }

    /** Other writers insert, replace and delete rows. */
    method Interleave()
      requires Valid()
      modifies this`rows, this`written, this`touched
      ensures Valid() && old(touched) <= touched
      ensures forall r :: r !in touched ==> (r in rows <==> r in old(rows)) && (r in rows ==> rows[r] == old(rows)[r])
      ensures touched == {} ==> rows == old(rows) && written == old(written)
    {
      var next: Rows :| next.Keys <= universe;
      touched := touched + Changed(rows, next);
      if next != rows { written := map r | r in next :: Plain(aead, keyring, next[r]); }
      rows := next;
    }

    /** The next row of the ordered scan, if there is one. */
    method FirstAfter(after: string) returns (next: Option<string>)
      ensures next.None? <==> NothingAfter(rows, after)
      ensures next.Some? ==> NextAfter(rows, after, next.value)
    {
      next := None;
      var rest := rows.Keys;
      while rest != {}
        invariant rest <= rows.Keys
        invariant next.None? ==> forall r :: r in rows && r !in rest ==> !Less(after, r)
        invariant next.Some? ==> next.value in rows && Less(after, next.value)
        invariant next.Some? ==> forall r :: r in rows && r !in rest && Less(after, r) ==> r == next.value || Less(next.value, r)
        decreases |rest|
      {
        var r :| r in rest;
        rest := rest - {r};
        if Less(after, r) && (next.None? || Less(r, next.value)) {
          if next.Some? { Earlier(rows.Keys - rest - {r}, after, next.value, r); }
          next := Some(r);
        } else if next.Some? {
          LessTotal(next.value, r);
        }
      }
    }

    /** ListCredentialReencryptionBatch. */
    method ListBatch(after: string, limit: int) returns (batch: seq<Item>)
      ensures Follows(rows, after, batch)
      ensures |batch| < limit ==> NothingAfter(rows, LastRef(after, batch))
      ensures limit > 0 ==> |batch| <= limit
    {
      batch := [];
      if limit <= 0 { return; }
      while |batch| < limit
        invariant |batch| <= limit && Follows(rows, after, batch)
        decreases limit - |batch|
      {
        var next := FirstAfter(LastRef(after, batch));
        if next.None? { return; }
        FollowsAppend(rows, after, batch, Item(next.value, rows[next.value]));
        batch := batch + [Item(next.value, rows[next.value])];
      }
    }

    /** ReencryptCredentialBlob: replaces exactly the blob that was read, or nothing. */
    method CompareAndSwap(ref: string, expected: string, replacement: string) returns (replaced: bool)
      modifies this`rows
      ensures old(Valid()) && Plain(aead, keyring, replacement) == Plain(aead, keyring, expected) ==> Valid()
      ensures replaced <==> ref in old(rows) && old(rows)[ref] == expected
      ensures rows == if replaced then old(rows)[ref := replacement] else old(rows)
    {
      replaced := ref in rows && rows[ref] == expected;
      if replaced { rows := rows[ref := replacement]; }
    }

    method NewNonce() returns (nonce: Bytes)
      ensures |nonce| == NONCE_SIZE
    {
      assert |Zeros12()| == NONCE_SIZE;
      nonce :| |nonce| == NONCE_SIZE;
    }

    /** One row of the batch. The error stops the sweep; a row that has changed since it was listed is left alone. */
    method Reencrypt(item: Item) returns (ok: bool, replaced: bool)
      requires Valid()
      modifies this
      ensures Valid() && old(touched) <= touched
      ensures forall r :: r !in touched && r != item.ref ==>
        (r in rows <==> r in old(rows)) && (r in rows ==> rows[r] == old(rows)[r])
      ensures item.ref !in touched ==> (item.ref in rows <==> item.ref in old(rows))
      ensures ok && item.ref !in touched && item.ref in old(rows) && old(rows)[item.ref] == item.blob ==>
        UnderActiveKey(keyring, rows[item.ref]) && (replaced <==> Needs(keyring, item.blob))
      ensures touched == {} ==> written == old(written)
      ensures faults >= old(faults) && (ok <==> faults == old(faults) && Readable(aead, keyring, item.blob))
    {
      var needs := NeedsReencryption(keyring, item.blob);
      if needs.Err? { return false, false; }
      if !needs.value { return true, false; }
      ok, replaced := Reseal(item);
    }

    /** Open, seal under the active key, and swap if nobody was faster. */
    method Reseal(item: Item) returns (ok: bool, replaced: bool)
      requires Valid() && Needs(keyring, item.blob)
      modifies this
      ensures Valid() && old(touched) <= touched
      ensures forall r :: r !in touched && r != item.ref ==>
        (r in rows <==> r in old(rows)) && (r in rows ==> rows[r] == old(rows)[r])
      ensures item.ref !in touched ==> (item.ref in rows <==> item.ref in old(rows))
      ensures ok && item.ref !in touched && item.ref in old(rows) && old(rows)[item.ref] == item.blob ==>
        UnderActiveKey(keyring, rows[item.ref]) && replaced
      ensures touched == {} ==> written == old(written)
      ensures faults >= old(faults) && (ok <==> faults == old(faults) && Plain(aead, keyring, item.blob).Some?)
    {
      var plaintext := DecryptString(aead, keyring, item.blob);
      if plaintext.Err? { return false, false; }
      var nonce := NewNonce();
      var replacement := EncryptString(aead, keyring, plaintext.value, nonce);
      AcceptedKeyringRoundTrip(aead, keyring, plaintext.value, nonce);
      Interleave();
      ok := GoesThrough();
      if !ok { return false, false; }
      replaced := CompareAndSwap(item.ref, item.blob, replacement);
    }

    /** Every untouched row up to the cursor is under the active key. */
    ghost predicate Clean(cursor: string)
      reads this
    {
      forall r :: r in rows && r !in touched && Passed(r, cursor) ==> UnderActiveKey(keyring, rows[r])
    }

    /** Beyond the cursor, the untouched rows are as they were listed. */
    ghost predicate Ahead(listed: Rows, cursor: string)
      reads this
    {
      forall r :: r !in touched && Less(cursor, r) ==> (r in rows <==> r in listed) && (r in rows ==> rows[r] == listed[r])
    }

    /** While nobody else has changed a row, the count is the number of passed rows that needed the new key. */
    ghost predicate Counted(start: Rows, plain: map<string, Option<Bytes>>, cursor: string, updated: nat)
      reads this
    {
      touched == {} ==>
        && rows.Keys == start.Keys && written == plain
        && (forall r :: r in rows && !Passed(r, cursor) ==> rows[r] == start[r])
        && updated == |PassedNeedy(start, keyring, cursor)|
        && (forall r :: r in start && Passed(r, cursor) ==> Readable(aead, keyring, start[r]))
    }

    /** The sweep gave up without a failing call, so unless others wrote meanwhile it has met a blob it cannot read. */
    ghost predicate Refused(start: Rows)
      reads this
    {
      touched == {} ==> !AllReadable(aead, keyring, start)
    }

    /** The row with the empty reference is as it was, unless somebody else has changed it. */
    ghost predicate EmptyRefKept(start: Rows)
      reads this
    {
      "" !in touched ==> ("" in rows <==> "" in start) && ("" in rows ==> rows[""] == start[""])
    }

    /** The body of the inner loop. */
    method ProcessRow(item: Item, updated: nat, ghost cursor: string, ghost listed: Rows, ghost start: Rows,
                      ghost plain: map<string, Option<Bytes>>)
      returns (ok: bool, count: nat)
      requires Valid() && Clean(cursor) && Ahead(listed, cursor) && Counted(start, plain, cursor, updated)
      requires NextAfter(listed, cursor, item.ref) && listed[item.ref] == item.blob && EmptyRefKept(start)
      modifies this
      ensures Valid() && old(touched) <= touched && EmptyRefKept(start)
      ensures ok ==> Clean(item.ref) && Ahead(listed, item.ref) && Counted(start, plain, item.ref, count)
      ensures touched == {} ==> written == old(written)
      ensures faults >= old(faults) && (ok <==> faults == old(faults) && Readable(aead, keyring, item.blob))
      ensures !ok && faults == old(faults) ==> Refused(start)
    {
      var replaced;
      ok, replaced := Reencrypt(item);
      count := if replaced then updated + 1 else updated;
      if touched == {} { ItemOfStart(item, cursor, listed, start, old(rows)); }
      if !ok { return; }
      forall r | r in rows && r !in touched && Passed(r, item.ref) ensures UnderActiveKey(keyring, rows[r]) {
        LessTotal(r, item.ref);
      }
      forall r | r !in touched && Less(item.ref, r)
        ensures (r in rows <==> r in listed) && (r in rows ==> rows[r] == listed[r])
      {
        LessTotal(item.ref, r);
        LessTransitive(cursor, item.ref, r);
      }
      if touched == {} { CountedAfter(item, cursor, listed, start, old(rows)); }
    }

    /** The item of an undisturbed sweep is a row the sweep started with. */
    lemma ItemOfStart(item: Item, cursor: string, listed: Rows, start: Rows, before: Rows)
      requires touched == {} && before.Keys == start.Keys
      requires NextAfter(listed, cursor, item.ref) && listed[item.ref] == item.blob
      requires forall r :: Less(cursor, r) ==> (r in before <==> r in listed) && (r in before ==> before[r] == listed[r])
      requires forall r :: r in before && !Passed(r, cursor) ==> before[r] == start[r]
      ensures item.ref in start && item.ref != "" && start[item.ref] == item.blob
      ensures !Readable(aead, keyring, item.blob) ==> Refused(start)
    {
    }

    lemma CountedAfter(item: Item, cursor: string, listed: Rows, start: Rows, before: Rows)
      requires touched == {} && rows.Keys == before.Keys == start.Keys
      requires NextAfter(listed, cursor, item.ref) && listed[item.ref] == item.blob
      requires forall r :: Less(cursor, r) ==> (r in before <==> r in listed) && (r in before ==> before[r] == listed[r])
      requires forall r :: r in before && !Passed(r, cursor) ==> before[r] == start[r]
      requires forall r :: r in rows && r != item.ref ==> rows[r] == before[r]
      ensures forall r :: r in rows && !Passed(r, item.ref) ==> rows[r] == start[r]
      ensures start[item.ref] == item.blob
      ensures forall r :: r in start && Passed(r, item.ref) ==> Passed(r, cursor) || r == item.ref
      ensures |PassedNeedy(start, keyring, item.ref)|
           == |PassedNeedy(start, keyring, cursor)| + (if Needs(keyring, item.blob) then 1 else 0)
    {
      LessTotal(cursor, item.ref);
      LessTotal(item.ref, item.ref);
      assert !Passed(item.ref, cursor) && Passed(item.ref, item.ref);
      assert NextAfter(start, cursor, item.ref) by {
        forall r | r in start && Less(cursor, r) ensures r == item.ref || Less(item.ref, r) { assert r in listed; }
      }
      PassedNeedyGrows(start, keyring, cursor, item.ref);
      forall r | r in start && Passed(r, item.ref) ensures Passed(r, cursor) || r == item.ref {
        PassedTheNext(start, cursor, item.ref, r);
      }
      forall r | r in rows && !Passed(r, item.ref) ensures rows[r] == start[r] {
        PassedTheNext(start, cursor, item.ref, r);
      }
    }

    /** The rows the references of the universe could still hold beyond the cursor. */
    function Beyond(cursor: string): set<string> {
      set r | r in universe && Less(cursor, r)
    }

    lemma BeyondShrinks(after: string, last: string)
      requires Less(after, last) && last in universe
      ensures |Beyond(last)| < |Beyond(after)|
    {
      LessTotal(last, last);
      forall r | r in Beyond(last) ensures r in Beyond(after) { LessTransitive(after, last, r); }
      assert last in Beyond(after) && last !in Beyond(last);
      SubsetSize(Beyond(last), Beyond(after) - {last});
    }

    /** No untouched row is left beyond the cursor. */
    ghost predicate Finished(cursor: string)
      reads this
    {
      forall r :: r in rows && r !in touched && r != "" ==> Passed(r, cursor)
    }

    lemma AllNeedyPassed(start: Rows, cursor: string)
      requires rows.Keys == start.Keys && touched == {} && Finished(cursor)
      ensures PassedNeedy(start, keyring, cursor) == set r | r in start && r != "" && Needs(keyring, start[r])
      ensures !Passed("", cursor)
    {
    }

    /** One batch: the inner loop. */
    method ProcessBatch(after: string, batch: seq<Item>, updated: nat, ghost start: Rows,
                        ghost plain: map<string, Option<Bytes>>)
      returns (ok: bool, count: nat)
      requires Valid() && Clean(after) && Counted(start, plain, after, updated)
      requires Follows(rows, after, batch) && EmptyRefKept(start)
      modifies this
      ensures Valid() && old(touched) <= touched && EmptyRefKept(start)
      ensures touched == {} ==> written == old(written)
      ensures ok ==> Clean(LastRef(after, batch)) && Counted(start, plain, LastRef(after, batch), count)
      ensures ok ==> Ahead(old(rows), LastRef(after, batch))
      ensures faults >= old(faults) && (ok ==> faults == old(faults)) && (!ok && faults == old(faults) ==> Refused(start))
    {
      count := updated;
      ghost var listed := rows;
      assert batch[..0] == [] && batch[0..] == batch;
      for i := 0 to |batch|
        invariant Valid() && old(touched) <= touched && (touched == {} ==> written == old(written)) && EmptyRefKept(start)
        invariant faults == old(faults)
        invariant Clean(LastRef(after, batch[..i])) && Ahead(listed, LastRef(after, batch[..i]))
        invariant Counted(start, plain, LastRef(after, batch[..i]), count)
        invariant Follows(listed, LastRef(after, batch[..i]), batch[i..])
      {
        NextItem(listed, after, batch, i);
        ok, count := ProcessRow(batch[i], count, LastRef(after, batch[..i]), listed, start, plain);
        if !ok { return; }
      }
      assert batch[..|batch|] == batch;
      ok := true;
    }

    /**
     ReencryptAll. On success every row nobody else has changed is under the active key, except a row with
     an empty reference, which the keyset never lists and the sweep leaves as it is. The plaintexts are those
     the last writers stored.
     */
    method ReencryptAll() returns (updated: nat, ok: bool)
      requires Valid()
      modifies this
      ensures Valid()
      ensures touched == {} ==> written == old(written)
      ensures EmptyRefKept(old(rows))
      ensures ok ==> forall r :: r in rows && r !in touched && r != "" ==> UnderActiveKey(keyring, rows[r])
      ensures ok && touched == {} ==>
        && rows.Keys == old(rows).Keys
        && updated == |set r | r in old(rows) && r != "" && Needs(keyring, old(rows)[r])|
        && forall r :: r in rows ==> Plain(aead, keyring, rows[r]) == Plain(aead, keyring, old(rows)[r])
      ensures faults >= old(faults) && (ok ==> faults == old(faults))
      ensures touched == {} ==> (ok <==> faults == old(faults) && AllReadable(aead, keyring, old(rows)))
    {
      touched := {};
      ghost var start, plain := rows, written;
      updated := 0;
      var after := "";
      NothingPassedAtStart(rows, keyring);
      assert forall r: string :: !Passed(r, "");
      var done := false;
      while !done
        invariant Valid() && Clean(after) && Counted(start, plain, after, updated) && EmptyRefKept(start)
        invariant touched == {} ==> written == old(written)
        invariant done ==> Finished(after)
        invariant faults == old(faults)
        decreases |Beyond(after)|, if done then 0 else 1
      {
        Interleave();
        ok := GoesThrough();
        if !ok { return; }
        var batch := ListBatch(after, BATCH_SIZE);
        if |batch| == 0 {
          done := true;
        } else {
          var last := LastRef(after, batch);
          BatchAdvances(rows, after, batch);
          BeyondShrinks(after, last);
          ok, updated := ProcessBatch(after, batch, updated, start, plain);
          if !ok { return; }
          after := last;
          done := |batch| < BATCH_SIZE;
        }
      }
      if touched == {} { AllNeedyPassed(start, after); }
      ok := true;
    }
  }

  /** One turn of the inner loop: item i is the next row, and the rest of the batch follows it. */
  lemma NextItem(listed: Rows, after: string, batch: seq<Item>, i: nat)
    requires i < |batch| && Follows(listed, LastRef(after, batch[..i]), batch[i..])
    ensures NextAfter(listed, LastRef(after, batch[..i]), batch[i].ref) && listed[batch[i].ref] == batch[i].blob
    ensures LastRef(after, batch[..i + 1]) == batch[i].ref
    ensures Follows(listed, batch[i].ref, batch[i + 1..])
  {
    assert batch[i..][0] == batch[i] && batch[i..][1..] == batch[i + 1..];
    assert batch[..i + 1] == batch[..i] + [batch[i]];
  }

  lemma {:induction false} BatchAdvances(rows: Rows, after: string, batch: seq<Item>)
    requires Follows(rows, after, batch) && |batch| > 0
    ensures Less(after, LastRef(after, batch)) && LastRef(after, batch) in rows
    decreases |batch|
  {
    if |batch| > 1 {
      BatchAdvances(rows, batch[0].ref, batch[1..]);
      assert LastRef(batch[0].ref, batch[1..]) == LastRef(after, batch);
      LessTransitive(after, batch[0].ref, LastRef(after, batch));
    }
  }

  lemma {:induction false} SubsetSize(small: set<string>, big: set<string>)
    requires small <= big
    ensures |small| <= |big|
    decreases |small|
  {
    if small != {} {
      var x :| x in small;
      SubsetSize(small - {x}, big - {x});
    }
  }

  function Zeros12(): (r: Bytes)
    ensures |r| == NONCE_SIZE
  {
    seq(NONCE_SIZE, _ => 0)
  }

  lemma Earlier(seen: set<string>, after: string, best: string, r: string)
    requires Less(r, best)
    requires forall x :: x in seen && Less(after, x) ==> x == best || Less(best, x)
    ensures forall x :: x in seen && Less(after, x) ==> x == r || Less(r, x)
  {
    forall x | x in seen && Less(after, x) ensures Less(r, x) {
      if x != best { LessTransitive(r, best, x); }
    }
  }

}
