/**
 The artifact repository row by row. Each method computes exactly the statement function the step
 relation of the saga uses, so that what is proved about the steps is proved about these methods.
 */
module ArtifactRepo {
  import opened SagaState
  import opened SagaSteps
  import opened SagaInvariant

  /** The primary key of artifact_revocation_intents. */
  ghost predicate UniqueIds(intents: map<Key, Intent>) {
    forall j, k :: j in intents && k in intents && intents[j].id == intents[k].id ==> j == k
  }

  /** In every reachable state of the saga an identifier names at most one intent. */
  lemma ReachableIdsAreUnique(db: Db)
    requires Global(db)
    ensures UniqueIds(db.intents)
  {
    forall j, k | j in db.intents && k in db.intents && db.intents[j].id == db.intents[k].id ensures j == k {
      assert KeyOk(db, j) && KeyOk(db, k);
    }
  }

  datatype Stored = StoredRow | RevocationIsPending | CredentialStale

  class ArtifactRepo {
    var db: Db

    constructor(db: Db)
      ensures this.db == db
    {
      this.db := db;
    }

    // ---------- artifact_revocation_intents ----------

    /** Insert, or on conflict upgrade to ready; the stored row is returned, with its own identifier. */
    method PutRevocationIntent(key: Key, candidate: Intent) returns (persisted: Intent)
      requires candidate.lease == Free
      modifies this
      ensures db == old(db).(intents := UpsertIntent(old(db).intents, key, candidate))
      ensures key in db.intents && persisted == db.intents[key]
      ensures key !in old(db).intents ==> persisted == candidate
      ensures key in old(db).intents && candidate.state == Provisional ==> db == old(db)
      ensures key in old(db).intents && candidate.state == Ready ==>
        persisted == Intent(old(db).intents[key].id, Ready, candidate.readyAfter, Free)
      ensures db.intents - {key} == old(db).intents - {key}
    {
      if key !in db.intents {
        db := db.(intents := db.intents[key := candidate]);
        return candidate;
      }
      persisted := db.intents[key];
      if candidate.state == Ready {
        persisted := persisted.(state := Ready);
        persisted := persisted.(readyAfter := candidate.readyAfter);
        persisted := persisted.(lease := Free);
      }
      db := db.(intents := db.intents[key := persisted]);
    }

    method MarkRevocationIntentReady(id: IntentId)
      modifies this
      ensures db == old(db).(intents := MarkReady(old(db).intents, id, old(db).now))
      ensures db.intents.Keys == old(db).intents.Keys
      ensures forall k :: k in db.intents ==>
        db.intents[k] == if old(db).intents[k].id == id then Intent(id, Ready, db.now, Free) else old(db).intents[k]
    {
      var updated := db.intents;
      var rest := db.intents.Keys;
      while rest != {}
        invariant rest <= db.intents.Keys && updated.Keys == db.intents.Keys
        invariant forall k :: k in rest ==> updated[k] == db.intents[k]
        invariant forall k :: k in db.intents && k !in rest ==> updated[k] == MarkReady(db.intents, id, db.now)[k]
        decreases |rest|
      {
        var k :| k in rest;
        rest := rest - {k};
        if updated[k].id == id { updated := updated[k := updated[k].(state := Ready, readyAfter := db.now, lease := Free)]; }
      }
      assert updated == MarkReady(db.intents, id, db.now);
      db := db.(intents := updated);
    }

    /** The intent with this identifier that this worker has leased. */
    method FindLeased(id: IntentId, token: Token) returns (found: Option<Key>)
      ensures found.Some? ==> Leased(db.intents, found.value, id, token)
      ensures found.None? ==> forall k :: !Leased(db.intents, k, id, token)
    {
      var rest := db.intents.Keys;
      while rest != {}
        invariant rest <= db.intents.Keys
        invariant forall k :: k in db.intents && k !in rest ==> !Leased(db.intents, k, id, token)
        decreases |rest|
      {
        var k :| k in rest;
        rest := rest - {k};
        if Leased(db.intents, k, id, token) { return Some(k); }
      }
      found := None;
    }

    /** A lost lease changes nothing; a visible row of the same value ends the intent; otherwise it becomes ready. */
    method ResolveProvisional(id: IntentId, token: Token) returns (shouldRevoke: bool)
      requires UniqueIds(db.intents)
      modifies this
      ensures (forall k :: !Leased(old(db).intents, k, id, token)) ==> db == old(db) && !shouldRevoke
      ensures forall k :: Leased(old(db).intents, k, id, token) ==>
        && shouldRevoke == !KeptByRow(old(db), k)
        && db == old(db).(intents := if shouldRevoke then CondemnIn(old(db), k).intents else old(db).intents - {k})
        && (shouldRevoke ==> k in db.intents && db.intents[k] == old(db).intents[k].(state := Ready))
        && (!shouldRevoke ==> k !in db.intents && Row(k, false) in old(db).rows.Values)
    {
      var found := FindLeased(id, token);
      if found.None? { return false; }
      var key := found.value;
      assert forall k :: Leased(db.intents, k, id, token) ==> k == key;
      if KeptByRow(db, key) {
        db := db.(intents := db.intents - {key});
        return false;
      }
      shouldRevoke := true;
      db := db.(intents := db.intents[key := db.intents[key].(state := Ready)]);
    }

    method ReleaseRevocationIntentClaim(id: IntentId, token: Token)
      requires UniqueIds(db.intents)
      modifies this
      ensures db == old(db).(intents := ReleaseClaim(old(db).intents, id, token))
      ensures db.intents.Keys == old(db).intents.Keys
      ensures forall k :: k in db.intents ==>
        db.intents[k] == if Leased(old(db).intents, k, id, token) then old(db).intents[k].(lease := Free) else old(db).intents[k]
    {
      var found := FindLeased(id, token);
      if found.Some? {
        OneRelease(db.intents, found.value, id, token);
        db := db.(intents := db.intents[found.value := db.intents[found.value].(lease := Free)]);
      } else {
        assert ReleaseClaim(db.intents, id, token) == db.intents;
      }
    }

    method FindById(id: IntentId) returns (found: Option<Key>)
      ensures found.Some? ==> found.value in db.intents && db.intents[found.value].id == id
      ensures found.None? ==> forall k :: k in db.intents ==> db.intents[k].id != id
    {
      var rest := db.intents.Keys;
      while rest != {}
        invariant rest <= db.intents.Keys
        invariant forall k :: k in db.intents && k !in rest ==> db.intents[k].id != id
        decreases |rest|
      {
        var k :| k in rest;
        rest := rest - {k};
        if db.intents[k].id == id { return Some(k); }
      }
      found := None;
    }

    /** Only a provisional intent is dropped; a ready one refuses the delivery of its key. */
    method FinalizeRevocationIntent(id: IntentId) returns (refused: bool)
      requires UniqueIds(db.intents)
      modifies this
      ensures refused <==> FinalizeRefused(old(db).intents, id)
      ensures db == if refused then old(db) else old(db).(intents := DropIntent(old(db).intents, id))
      ensures !refused ==> forall k :: k in db.intents <==> k in old(db).intents && old(db).intents[k].id != id
      ensures refused ==> exists k :: k in db.intents && db.intents[k].id == id && db.intents[k].state == Ready
    {
      var found := FindById(id);
      if found.None? {
        assert DropIntent(db.intents, id) == db.intents;
        return false;
      }
      refused := db.intents[found.value].state != Provisional;
      if !refused {
        assert db.intents - {found.value} == DropIntent(db.intents, id);
        db := db.(intents := db.intents - {found.value});
      }
    }

    // ---------- runtime_artifacts ----------

    method HasRevocationPending(binding: Binding) returns (pending: bool)
      ensures pending <==>
        || (exists s :: s in db.rows && s.binding == binding && db.rows[s].pending)
        || (exists k :: k in db.intents && k in db.info && db.info[k].slot.binding == binding)
    {
      var slots := db.rows.Keys;
      while slots != {}
        invariant slots <= db.rows.Keys
        invariant forall s :: s in db.rows && s !in slots ==> !(s.binding == binding && db.rows[s].pending)
        decreases |slots|
      {
        var s :| s in slots;
        slots := slots - {s};
        if s.binding == binding && db.rows[s].pending { return true; }
      }
      pending := HasIntent(db, binding);
    }

    /** PutIfCredentialCurrent: the row replaces whatever the profile had, unless something is pending or stale. */
    method PutIfCredentialCurrent(slot: Slot, key: Key, generation: nat) returns (stored: Stored)
      modifies this
      ensures stored.StoredRow? <==>
        && !HasPendingRow(old(db).rows, slot.binding)
        && slot.binding in old(db).creds && old(db).creds[slot.binding] == Credential(generation, true)
      ensures stored.RevocationIsPending? <==> HasPendingRow(old(db).rows, slot.binding)
      ensures db == if stored.StoredRow? then old(db).(rows := old(db).rows[slot := Row(key, false)]) else old(db)
    {
      if HasPendingRow(db.rows, slot.binding) { return RevocationIsPending; }
      if slot.binding !in db.creds || db.creds[slot.binding].generation != generation || !db.creds[slot.binding].active {
        return CredentialStale;
      }
      db := db.(rows := db.rows[slot := Row(key, false)]);
      stored := StoredRow;
    }

    /** DeleteArtifactImmediately: a row that carries another value stays. */
    method DeleteArtifact(slot: Slot, key: Key)
      modifies this
      ensures db == old(db).(rows := DropRow(old(db).rows, slot, key))
      ensures slot in old(db).rows && old(db).rows[slot].key != key ==> db.rows == old(db).rows
      ensures slot in old(db).rows && old(db).rows[slot].key == key ==> slot !in db.rows
      ensures db.rows - {slot} == old(db).rows - {slot}
    {
      if slot in db.rows && db.rows[slot].key == key { db := db.(rows := db.rows - {slot}); }
    }

    method MarkRevocationPending(binding: Binding)
      modifies this
      ensures db == old(db).(rows := RowsPending(old(db).rows, binding))
      ensures db.rows.Keys == old(db).rows.Keys
      ensures forall s :: s in db.rows ==>
        db.rows[s] == Row(old(db).rows[s].key, old(db).rows[s].pending || s.binding == binding)
    {
      var updated := db.rows;
      var slots := db.rows.Keys;
      while slots != {}
        invariant slots <= db.rows.Keys && updated.Keys == db.rows.Keys
        invariant forall s :: s in slots ==> updated[s] == db.rows[s]
        invariant forall s :: s in db.rows && s !in slots ==> updated[s] == RowsPending(db.rows, binding)[s]
        decreases |slots|
      {
        var s :| s in slots;
        slots := slots - {s};
        if s.binding == binding { updated := updated[s := updated[s].(pending := true)]; }
      }
      assert updated == RowsPending(db.rows, binding);
      db := db.(rows := updated);
    }

    /** DeleteByBindingRef, in the transaction or immediately. */
    method DeleteByBinding(binding: Binding)
      modifies this
      ensures db == old(db).(rows := DropBinding(old(db).rows, binding))
      ensures forall s :: s in db.rows <==> s in old(db).rows && s.binding != binding
      ensures forall s :: s in db.rows ==> db.rows[s] == old(db).rows[s]
    {
      var kept := db.rows;
      var slots := db.rows.Keys;
      while slots != {}
        invariant slots <= db.rows.Keys
        invariant forall s :: s in kept <==> s in db.rows && (s in slots || s.binding != binding)
        invariant forall s :: s in kept ==> kept[s] == db.rows[s]
        decreases |slots|
      {
        var s :| s in slots;
        slots := slots - {s};
        if s.binding == binding { kept := kept - {s}; }
      }
      assert kept == DropBinding(db.rows, binding);
      db := db.(rows := kept);
    }
  }

  lemma OneRelease(intents: map<Key, Intent>, key: Key, id: IntentId, token: Token)
    requires UniqueIds(intents) && Leased(intents, key, id, token)
    ensures ReleaseClaim(intents, id, token) == intents[key := intents[key].(lease := Free)]
  {
  }

}
