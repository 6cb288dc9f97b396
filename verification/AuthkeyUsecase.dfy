/**
 GetAuthKey and ConfirmDeliverable, statement by statement, among all other requests. The transaction may be rolled
 back under the request while upstream issues the key or after.
 */
module AuthkeyUsecase {
  import opened SagaState
  import opened SagaSteps
  import opened SagaInvariant
  import opened ArtifactLifecycle
  import opened AuthkeyAnswers

  class AuthkeyUsecase {
    const service: Service

    constructor()
      ensures fresh(service) && service.world == EMPTY_WORLD && Inv(service.world)
    {
      service := new Service();
    }

    ghost predicate Is(t: ThreadId, th: Thread)
      reads service
    {
      Inv(service.world) && t in service.world.threads && service.world.threads[t] == th
    }

    /** The request is over, with an answer that what it has met explains. */
    ghost predicate Ends(t: ThreadId, answer: Answer, trail: Trail, slot: Slot, upstream: Upstream, faults: int)
      reads service
    {
      && t !in service.world.threads && InOrder(trail, service.world)
      && Explained(answer, trail, service.world, slot, upstream, service.faults - faults)
    }

    // ---------- The transaction begins ----------

    /** The transaction starts with the credential row lock, or not at all. */
    method LockCredential(t: ThreadId, slot: Slot, ghost upstream: Upstream)
      returns (generation: nat, stop: Option<Answer>, ghost locked: World)
      requires Inv(service.world) && t !in service.world.threads
      modifies service
      ensures Advances(old(service.world), locked) && Advances(locked, service.world)
      ensures stop.None? ==>
        && Is(t, Locked(slot, generation)) && service.faults == old(service.faults)
        && slot.binding in locked.db.creds && locked.db.creds[slot.binding].generation == generation
      ensures stop.Some? ==> Ends(t, stop.value, Trail(locked, locked, locked), slot, upstream, old(service.faults))
    {
      service.Interleave(t);
      locked := service.world;
      AdvancesSelf(locked);
      generation, stop := 0, None;
      if slot.binding !in service.world.db.creds { return 0, Some(NoCredential), locked; }
      if slot.binding in service.world.db.locks {
        service.WaitInVain(slot.binding);
        return 0, Some(Broken), locked;
      }
      generation := service.world.db.creds[slot.binding].generation;
      AdvancesByStep(service.world, Begin(t, Request.GetAuthKey(slot)));
      service.world := Apply(service.world, Begin(t, Request.GetAuthKey(slot)));
    }

    /** The transaction is rolled back and the request ends with its error. */
    method RollBack(t: ThreadId)
      requires Inv(service.world) && t in service.world.threads
      modifies service`world
      ensures Advances(old(service.world), service.world) && t !in service.world.threads
    {
      service.Do(t, Crash);
    }

    // ---------- What stops it before it has a key ----------

    /** An inactive credential: its binding is invalidated, and the transaction rolled back. */
    method RefuseInactive(t: ThreadId, slot: Slot, ghost upstream: Upstream, ghost locked: World, ghost met: World)
      returns (answer: Answer, ghost listed: World)
      requires Is(t, Listing(Cause(slot.binding, true, Refuse))) && Advances(locked, met) && Advances(met, service.world)
      requires slot.binding in met.db.creds && !met.db.creds[slot.binding].active
      modifies service
      ensures Ends(t, answer, Trail(locked, met, listed), slot, upstream, old(service.faults))
    {
      ghost var before := service.world;
      var keys, result;
      keys, result, listed := service.InvalidateBinding(t, Cause(slot.binding, true, Refuse));
      ghost var concluded := service.world;
      service.Do(t, Move.Commit(Done));
      AdvancesTransitive(met, before, listed);
      AdvancesTransitive(listed, concluded, service.world);
      StaysInvalidated(listed, concluded, service.world, slot.binding, keys, result);
      answer := RequiresAttention(keys, result);
    }

    /** The status check and the first count of HasRevocationPending. */
    method CountRows(t: ThreadId, slot: Slot, generation: nat, ghost upstream: Upstream, ghost locked: World)
      returns (stop: Option<Answer>, ghost met: World, ghost listed: World)
      requires Is(t, Locked(slot, generation)) && Advances(locked, service.world)
      modifies service
      ensures stop.None? ==>
        Is(t, RowsCounted(slot, generation)) && Advances(locked, service.world) && service.faults == old(service.faults)
      ensures stop.Some? ==> Ends(t, stop.value, Trail(locked, met, listed), slot, upstream, old(service.faults))
    {
      ghost var before := service.world;
      service.Interleave(t);
      AdvancesTransitive(locked, before, service.world);
      met, listed, stop := service.world, service.world, None;
      AdvancesSelf(met);
      assert Holds(met.db, t, met.threads[t]);
      if !service.world.db.creds[slot.binding].active {
        service.Do(t, FindInactive);
        var answer;
        answer, listed := RefuseInactive(t, slot, upstream, locked, met);
        stop := Some(answer);
      } else if HasPendingRow(service.world.db.rows, slot.binding) {
        RollBack(t);
        stop := Some(Blocked);
      } else {
        service.Do(t, CountPendingRows);
        AdvancesTransitive(locked, met, service.world);
      }
    }

    /** The second count of HasRevocationPending. */
    method CountIntentsOf(t: ThreadId, slot: Slot, generation: nat, ghost upstream: Upstream, ghost locked: World)
      returns (stop: Option<Answer>, ghost met: World)
      requires Is(t, RowsCounted(slot, generation)) && Advances(locked, service.world)
      modifies service`world
      ensures stop.None? ==> Is(t, Checked(slot, generation)) && Advances(locked, service.world)
      ensures stop.Some? ==> Ends(t, stop.value, Trail(locked, met, met), slot, upstream, service.faults)
    {
      ghost var before := service.world;
      service.Interleave(t);
      AdvancesTransitive(locked, before, service.world);
      met, stop := service.world, None;
      AdvancesSelf(met);
      if HasIntent(service.world.db, slot.binding) {
        RollBack(t);
        stop := Some(Blocked);
      } else {
        service.Do(t, CountIntents);
        AdvancesTransitive(locked, met, service.world);
      }
    }

    /** GetByBindingRef, at the moment `met`; a key about to expire is invalidated before a new one is issued. */
    method ReadArtifact(t: ThreadId, slot: Slot, generation: nat, ghost upstream: Upstream, ghost locked: World)
      returns (stop: Option<Answer>, stored: Option<Key>, ghost met: World)
      requires Is(t, Checked(slot, generation)) && Advances(locked, service.world)
      modifies service
      ensures stop.None? ==>
        && Is(t, if stored.None? then Issuing(slot, generation) else Reusing(slot, stored.value))
        && Advances(locked, met) && Advances(met, service.world) && service.faults == old(service.faults)
        && (stored.Some? <==> Reusable(met.db, slot))
        && (stored.Some? ==> stored.value == met.db.rows[slot].key && OfSlot(service.world.db, slot, stored.value))
      ensures stop.Some? ==> Ends(t, stop.value, Trail(locked, met, met), slot, upstream, old(service.faults))
    {
      ghost var before := service.world;
      service.Interleave(t);
      AdvancesTransitive(locked, before, service.world);
      met, stop, stored := service.world, None, None;
      AdvancesSelf(met);
      assert RowOk(met.db, slot);
      WhatTheRowAllows(met.db, slot, generation);
      service.Do(t, Move.ReadArtifact);
      if service.world.threads[t].Issuing? { return; }
      if service.world.threads[t].Reusing? { return None, Some(service.world.threads[t].key), met; }
      before := service.world;
      var ok := Reissue(t, slot, generation);
      AdvancesTransitive(met, before, service.world);
      if !ok { stop := Some(Broken); }
    }

    method Reissue(t: ThreadId, slot: Slot, generation: nat) returns (ok: bool)
      requires Is(t, Listing(Cause(slot.binding, true, Purpose.Reissue(slot, generation))))
      modifies service
      ensures Advances(old(service.world), service.world) && Reported(old(service.faults), service.faults, ok)
      ensures if ok then Is(t, Issuing(slot, generation)) else t !in service.world.threads
    {
      var cause := Cause(slot.binding, true, Purpose.Reissue(slot, generation));
      var listed, result, at := service.InvalidateBinding(t, cause);
      ghost var before := service.world;
      service.Do(t, Move.Commit(Done));
      AdvancesTransitive(old(service.world), before, service.world);
      ok := result == Success;
    }

    /** getAuthKeyLocked up to the artifact, which it reads at the moment `met`. */
    method CheckAndRead(t: ThreadId, slot: Slot, generation: nat, ghost upstream: Upstream, ghost locked: World)
      returns (stop: Option<Answer>, stored: Option<Key>, ghost met: World, ghost listed: World)
      requires Is(t, Locked(slot, generation)) && Advances(locked, service.world)
      modifies service
      ensures stop.None? ==>
        && Is(t, if stored.None? then Issuing(slot, generation) else Reusing(slot, stored.value))
        && Advances(locked, met) && Advances(met, service.world) && service.faults == old(service.faults)
        && (stored.Some? <==> Reusable(met.db, slot))
        && (stored.Some? ==> stored.value == met.db.rows[slot].key && OfSlot(service.world.db, slot, stored.value))
      ensures stop.Some? ==> Ends(t, stop.value, Trail(locked, met, listed), slot, upstream, old(service.faults))
    {
      stored := None;
      stop, met, listed := CountRows(t, slot, generation, upstream, locked);
      if stop.Some? { return; }
      stop, met := CountIntentsOf(t, slot, generation, upstream, locked);
      listed := met;
      if stop.Some? { return; }
      stop, stored, met := ReadArtifact(t, slot, generation, upstream, locked);
      listed := met;
    }

    // ---------- A new key ----------

    method NewKey() returns (key: Key)
      ensures key !in service.world.db.info
    {
      var keys := service.world.db.info.Keys;
      key := 0;
      while keys != {}
        invariant forall k :: k in service.world.db.info && k !in keys ==> k < key
        decreases |keys|
      {
        var k :| k in keys;
        keys := keys - {k};
        if key <= k { key := k + 1; }
      }
    }

    /** Upstream says the credential is no good: it is saved as such, its binding invalidated, and the transaction committed. */
    method RefuseRejected(t: ThreadId, slot: Slot, upstream: Upstream, ghost locked: World, ghost met: World)
      returns (answer: Answer, ghost listed: World)
      requires Is(t, Listing(Cause(slot.binding, true, Attention))) && upstream.Rejects?
      requires Advances(locked, met) && Advances(met, service.world)
      modifies service
      ensures Ends(t, answer, Trail(locked, met, listed), slot, upstream, old(service.faults))
    {
      ghost var before := service.world;
      var keys, result;
      keys, result, listed := service.InvalidateBinding(t, Cause(slot.binding, true, Attention));
      AdvancesTransitive(met, before, listed);
      ghost var concluded := service.world;
      var committed := CommitRejection(t, slot, result);
      AdvancesTransitive(listed, concluded, service.world);
      StaysInvalidated(listed, concluded, service.world, slot.binding, keys, result);
      answer := Rejected(keys, result, committed);
    }

    method CommitRejection(t: ThreadId, slot: Slot, result: Result) returns (committed: bool)
      requires Is(t, Concluding(Cause(slot.binding, true, Attention), result))
      modifies service
      ensures Advances(old(service.world), service.world) && t !in service.world.threads
      ensures Reported(old(service.faults), service.faults, committed)
      ensures committed ==>
        slot.binding in service.world.db.creds && !service.world.db.creds[slot.binding].active
    {
      service.Interleave(t);
      ghost var before := service.world;
      assert Holds(before.db, t, before.threads[t]);
      var outcome := service.AnyOutcome();
      service.Do(t, Move.Commit(outcome));
      AdvancesTransitive(old(service.world), before, service.world);
      committed := outcome == Done;
    }

    method FailUpstream(upstream: Upstream)
      requires upstream.Fails?
      modifies service`faults
      ensures service.faults == old(service.faults) + 1
    {
      service.faults := service.faults + 1;
    }

    /** IssueAuthKeyWithTTL: a key, an error, or the news that the credential needs attention. */
    method IssueUpstream(t: ThreadId, slot: Slot, generation: nat, upstream: Upstream, ghost locked: World, ghost met: World)
      returns (issued: Option<Key>, answer: Answer, ghost listed: World)
      requires Is(t, Issuing(slot, generation)) && Advances(locked, met) && Advances(met, service.world)
      modifies service
      ensures issued.Some? ==>
        && Is(t, Issued(slot, generation, issued.value)) && Advances(met, service.world)
        && service.faults == old(service.faults) && upstream.Issues? && issued.value !in met.db.info
      ensures issued.None? ==> Ends(t, answer, Trail(locked, met, listed), slot, upstream, old(service.faults))
    {
      ghost var before := service.world;
      service.Interleave(t);
      AdvancesTransitive(met, before, service.world);
      issued, answer, listed := None, Broken, service.world;
      before := service.world;
      match upstream
      case Fails =>
        FailUpstream(upstream);
        RollBack(t);
        AdvancesTransitive(met, before, service.world);
        listed := service.world;
        AdvancesSelf(listed);
      case Rejects =>
        service.Do(t, UpstreamRejects);
        AdvancesTransitive(met, before, service.world);
        answer, listed := RefuseRejected(t, slot, upstream, locked, met);
      case Issues(ttl) =>
        var key := NewKey();
        assert KeyKept(met.db, before.db, key);
        service.Do(t, UpstreamIssues(key, service.world.db.now + if ValidTtl(ttl) then ttl else MAXIMUM_KEY_TTL));
        AdvancesTransitive(met, before, service.world);
        issued := Some(key);
    }

    /** StageIssuedArtifact; a key that could not be staged is revoked at once, if upstream answers. */
    method StageIssued(t: ThreadId, slot: Slot, generation: nat, key: Key) returns (id: IntentId, ok: bool, revoked: bool)
      requires Is(t, Issued(slot, generation, key))
      modifies service
      ensures Advances(old(service.world), service.world)
      ensures if ok then Is(t, Staged(slot, generation, key, id)) else t !in service.world.threads
      ensures ok ==>
        key in service.world.db.intents
        && service.world.db.intents[key] == Intent(id, Provisional, service.world.db.now + 30, Free)
      ensures !ok && revoked ==> key in service.world.db.acked
      ensures if ok then service.faults == old(service.faults) else Reported(old(service.faults) + 1, service.faults, revoked)
    {
      service.Interleave(t);
      ghost var before := service.world;
      id, ok := StageNow(t, slot, generation, key);
      AdvancesTransitive(old(service.world), before, service.world);
      revoked := false;
      if !ok {
        before := service.world;
        revoked := RevokeUntracked(t, slot, key);
        AdvancesTransitive(old(service.world), before, service.world);
      }
    }

    method StageNow(t: ThreadId, slot: Slot, generation: nat, key: Key) returns (id: IntentId, ok: bool)
      requires Is(t, Issued(slot, generation, key))
      modifies service
      ensures Advances(old(service.world), service.world)
      ensures Is(t, if ok then Staged(slot, generation, key, id) else Untracked(slot, key))
      ensures ok ==>
        key in service.world.db.intents
        && service.world.db.intents[key] == Intent(id, Provisional, service.world.db.now + 30, Free)
      ensures service.faults == old(service.faults) + if ok then 0 else 1
    {
      id := service.NewIntentId();
      assert KeyOk(service.world.db, key) && Holds(service.world.db, t, service.world.threads[t]);
      var outcome := service.AnyOutcome();
      service.Do(t, Move.Stage(id, outcome));
      ok := outcome == Done;
    }

    method RevokeUntracked(t: ThreadId, slot: Slot, key: Key) returns (ok: bool)
      requires Is(t, Untracked(slot, key))
      modifies service
      ensures Advances(old(service.world), service.world) && t !in service.world.threads
      ensures ok ==> key in service.world.db.acked
      ensures Reported(old(service.faults), service.faults, ok)
    {
      service.Interleave(t);
      ghost var before := service.world;
      var outcome := service.AnyOutcome();
      service.Do(t, Move.RevokeUntracked(outcome));
      AdvancesTransitive(old(service.world), before, service.world);
      ok := outcome == Done;
    }

    // ---------- From the staged intent to the finished request ----------

    /**
     PutIfCredentialCurrent, at the moment `met`, unless upstream gave the key a lifetime out of range; without the row
     the transaction rolls back and compensation begins.
     */
    method StoreRow(t: ThreadId, slot: Slot, generation: nat, key: Key, id: IntentId, ttl: int)
      returns (ok: bool, failed: bool, ghost met: World)
      requires Is(t, Staged(slot, generation, key, id))
      modifies service
      ensures Advances(old(service.world), met) && Advances(met, service.world)
      ensures Is(t, if ok then Written(slot, key, id) else Compensating(Job(key, id, MarkStage)))
      ensures service.faults == old(service.faults) + if failed then 1 else 0
      ensures ok ==> !failed && ValidTtl(ttl)
      ensures !ok && !failed ==>
        || !ValidTtl(ttl) || slot.binding !in met.db.creds
        || met.db.creds[slot.binding] != Credential(generation, true) || HasPendingRow(met.db.rows, slot.binding)
    {
      service.Interleave(t);
      met, ok, failed := service.world, false, false;
      if ValidTtl(ttl) {
        var outcome := service.AnyOutcome();
        failed := outcome != Done;
        ok := !failed && Can(service.world.db, t, service.world.threads[t], WriteRow);
      }
      service.Do(t, if ok then WriteRow else Abandon);
    }

    method CommitRow(t: ThreadId, slot: Slot, key: Key, id: IntentId) returns (ok: bool)
      requires Is(t, Written(slot, key, id))
      modifies service
      ensures Advances(old(service.world), service.world)
      ensures Is(t, if ok then Finalizing(key, id) else Compensating(Job(key, id, MarkStage)))
      ensures OfSlot(service.world.db, slot, key)
      ensures service.faults == old(service.faults) + if ok then 0 else 1
    {
      service.Interleave(t);
      ghost var before := service.world;
      assert Holds(before.db, t, before.threads[t]);
      var outcome := service.AnyOutcome();
      service.Do(t, Move.Commit(outcome));
      AdvancesTransitive(old(service.world), before, service.world);
      assert KeyKept(before.db, service.world.db, key);
      ok := outcome == Done;
    }

    /** FinalizeIssuedArtifact, at the moment `met`: only a provisional intent, or none, lets the key go out. */
    method FinalizeKey(t: ThreadId, slot: Slot, key: Key, id: IntentId) returns (ok: bool, failed: bool, ghost met: World)
      requires Is(t, Finalizing(key, id))
      requires OfSlot(service.world.db, slot, key)
      modifies service
      ensures Advances(old(service.world), met) && Advances(met, service.world)
      ensures if ok then t !in service.world.threads && HandedOut(service.world.db, slot, key)
              else Is(t, Compensating(Job(key, id, MarkStage)))
      ensures ok ==> NoIntentWith(service.world.db, id)
      ensures service.faults == old(service.faults) + if failed then 1 else 0
      ensures if ok then !failed else failed || IsReady(met.db, key)
    {
      service.Interleave(t);
      met := service.world;
      assert KeyKept(old(service.world).db, met.db, key);
      ok, failed := FinalizeNow(t, slot, key, id);
    }

    method FinalizeNow(t: ThreadId, slot: Slot, key: Key, id: IntentId) returns (ok: bool, failed: bool)
      requires Is(t, Finalizing(key, id))
      requires OfSlot(service.world.db, slot, key)
      modifies service
      ensures Advances(old(service.world), service.world)
      ensures if ok then t !in service.world.threads && HandedOut(service.world.db, slot, key)
              else Is(t, Compensating(Job(key, id, MarkStage)))
      ensures ok ==> NoIntentWith(service.world.db, id)
      ensures service.faults == old(service.faults) + if failed then 1 else 0
      ensures if ok then !failed else failed || IsReady(old(service.world).db, key)
    {
      assert Holds(service.world.db, t, service.world.threads[t]);
      var outcome := service.AnyOutcome();
      failed := outcome != Done;
      ok := !failed && !FinalizeRefused(service.world.db.intents, id);
      if ok { FinalizedGoesOut(service.world.db, t, slot, key, id); }
      if !failed && !ok { RefusedIsReady(service.world.db, t, key, id); }
      service.Do(t, Move.Finalize(outcome));
    }

    /** RevokeIssuedArtifact after a failure; it stops at the first error, and success leaves neither row nor intent. */
    method Compensate(t: ThreadId, key: Key, id: IntentId) returns (ok: bool)
      requires Is(t, Compensating(Job(key, id, MarkStage)))
      modifies service
      ensures Advances(old(service.world), service.world) && t !in service.world.threads
      ensures ok ==> key in service.world.db.acked && Forgotten(service.world.db, Job(key, id, MarkStage))
      ensures Reported(old(service.faults), service.faults, ok)
    {
      ok := CompensateStatement(t, Job(key, id, MarkStage));
      if !ok { return; }
      ghost var before := service.world;
      ok := RevokeCompensated(t, key, id);
      AdvancesTransitive(old(service.world), before, service.world);
    }

    /** The revocation upstream and what follows it. */
    method RevokeCompensated(t: ThreadId, key: Key, id: IntentId) returns (ok: bool)
      requires Is(t, Compensating(Job(key, id, CallStage)))
      modifies service
      ensures Advances(old(service.world), service.world) && t !in service.world.threads
      ensures ok ==> key in service.world.db.acked && Forgotten(service.world.db, Job(key, id, MarkStage))
      ensures Reported(old(service.faults), service.faults, ok)
    {
      ok := CompensateStatement(t, Job(key, id, CallStage));
      if !ok { return; }
      ghost var before := service.world;
      ok := ForgetCompensated(t, key, id);
      AdvancesTransitive(old(service.world), before, service.world);
    }

    /** The last two statements: the row and the intent. */
    method ForgetCompensated(t: ThreadId, key: Key, id: IntentId) returns (ok: bool)
      requires Is(t, Compensating(Job(key, id, RowStage)))
      modifies service
      ensures Advances(old(service.world), service.world) && t !in service.world.threads
      ensures ok ==> key in service.world.db.acked && Forgotten(service.world.db, Job(key, id, MarkStage))
      ensures Reported(old(service.faults), service.faults, ok)
    {
      ok := CompensateStatement(t, Job(key, id, RowStage));
      if !ok { return; }
      ghost var before := service.world;
      ok := CompensateStatement(t, Job(key, id, IntentStage));
      AdvancesTransitive(old(service.world), before, service.world);
    }

    method CompensateStatement(t: ThreadId, job: Job) returns (ok: bool)
      requires Is(t, Compensating(job))
      modifies service
      ensures Advances(old(service.world), service.world)
      ensures if ok && job.stage != IntentStage then Is(t, Compensating(job.(stage := NextStage(job.stage))))
              else t !in service.world.threads
      ensures ok && job.stage == IntentStage ==> job.key in service.world.db.acked && Forgotten(service.world.db, job)
      ensures Reported(old(service.faults), service.faults, ok)
    {
      service.Interleave(t);
      ghost var before := service.world;
      assert Holds(before.db, t, before.threads[t]);
      var outcome := service.AnyOutcome();
      service.Do(t, Move.Revoke(outcome));
      AdvancesTransitive(old(service.world), before, service.world);
      ok := outcome == Done;
    }

    /** The key is given up for what was met, and its revocation tried. */
    method Withdraw(t: ThreadId, slot: Slot, key: Key, id: IntentId, upstream: Upstream, failed: bool, ghost faults: int,
                    ghost locked: World, ghost met: World)
      returns (answer: Answer)
      requires Is(t, Compensating(Job(key, id, MarkStage))) && Advances(locked, met) && Advances(met, service.world)
      requires upstream.Issues? && service.faults == faults + if failed then 1 else 0
      requires failed || !ValidTtl(upstream.ttl) || Unstorable(met.db, locked.db, slot.binding) || IsReady(met.db, key)
      modifies service
      ensures Ends(t, answer, Trail(locked, met, service.world), slot, upstream, faults)
    {
      ghost var before := service.world;
      var revoked := Compensate(t, key, id);
      AdvancesTransitive(met, before, service.world);
      AdvancesSelf(service.world);
      answer := Withdrawn(key, failed, revoked);
    }

    /** From the staged intent to the finished request. */
    method StoreAndFinalize(t: ThreadId, slot: Slot, generation: nat, key: Key, id: IntentId, upstream: Upstream,
                            ghost locked: World, ghost read: World)
      returns (answer: Answer, ghost met: World)
      requires Is(t, Staged(slot, generation, key, id)) && Advances(locked, read) && Advances(read, service.world)
      requires slot.binding in locked.db.creds && locked.db.creds[slot.binding].generation == generation
      requires upstream.Issues? && key !in read.db.info && !Reusable(read.db, slot)
      modifies service
      ensures Ends(t, answer, Trail(locked, met, service.world), slot, upstream, old(service.faults))
    {
      ghost var before := service.world;
      AdvancesTransitive(locked, read, before);
      var ok, failed;
      ok, failed, met := StoreRow(t, slot, generation, key, id, upstream.ttl);
      AdvancesTransitive(locked, before, met);
      if !ok {
        answer := Withdraw(t, slot, key, id, upstream, failed, old(service.faults), locked, met);
        return;
      }
      AdvancesTransitive(read, before, met);
      AdvancesTransitive(read, met, service.world);
      answer, met := CommitAndFinalize(t, slot, key, id, upstream, locked, read);
    }

    /** The commit and what follows it. */
    method CommitAndFinalize(t: ThreadId, slot: Slot, key: Key, id: IntentId, upstream: Upstream,
                             ghost locked: World, ghost read: World)
      returns (answer: Answer, ghost met: World)
      requires Is(t, Written(slot, key, id)) && Advances(locked, read) && Advances(read, service.world)
      requires upstream.Issues? && ValidTtl(upstream.ttl) && key !in read.db.info && !Reusable(read.db, slot)
      modifies service
      ensures Ends(t, answer, Trail(locked, met, service.world), slot, upstream, old(service.faults))
    {
      ghost var before := service.world;
      var ok := CommitRow(t, slot, key, id);
      AdvancesTransitive(read, before, service.world);
      met := service.world;
      AdvancesTransitive(locked, read, met);
      AdvancesSelf(met);
      if !ok {
        answer := Withdraw(t, slot, key, id, upstream, true, old(service.faults), locked, met);
        return;
      }
      answer, met := FinalizeOrWithdraw(t, slot, key, id, upstream, locked, read);
    }

    method FinalizeOrWithdraw(t: ThreadId, slot: Slot, key: Key, id: IntentId, upstream: Upstream,
                              ghost locked: World, ghost read: World)
      returns (answer: Answer, ghost met: World)
      requires Is(t, Finalizing(key, id)) && OfSlot(service.world.db, slot, key)
      requires Advances(locked, read) && Advances(read, service.world)
      requires upstream.Issues? && ValidTtl(upstream.ttl) && key !in read.db.info && !Reusable(read.db, slot)
      modifies service
      ensures Ends(t, answer, Trail(locked, met, service.world), slot, upstream, old(service.faults))
    {
      ghost var before := service.world;
      var ok, failed;
      ok, failed, met := FinalizeKey(t, slot, key, id);
      AdvancesTransitive(read, before, met);
      AdvancesTransitive(locked, read, met);
      if !ok {
        answer := Withdraw(t, slot, key, id, upstream, failed, old(service.faults), locked, met);
        return;
      }
      AdvancesTransitive(read, met, service.world);
      AdvancesSelf(service.world);
      met := read;
      answer := Given(key);
    }

    // ---------- After a rollback under the request ----------

    /** StageIssuedArtifact needs no transaction; a key that could not be staged is revoked at once, if upstream answers. */
    method StageAlone(t: ThreadId, slot: Slot, key: Key) returns (id: IntentId, ok: bool, revoked: bool)
      requires Is(t, IssuedAlone(slot, key))
      modifies service
      ensures Advances(old(service.world), service.world)
      ensures if ok then Is(t, Compensating(Job(key, id, MarkStage))) else t !in service.world.threads
      ensures ok ==>
        key in service.world.db.intents
        && service.world.db.intents[key] == Intent(id, Provisional, service.world.db.now + 30, Free)
      ensures !ok && revoked ==> key in service.world.db.acked
      ensures if ok then service.faults == old(service.faults) else Reported(old(service.faults) + 1, service.faults, revoked)
    {
      service.Interleave(t);
      ghost var before := service.world;
      id, ok := StageAloneNow(t, slot, key);
      AdvancesTransitive(old(service.world), before, service.world);
      revoked := false;
      if !ok {
        before := service.world;
        revoked := RevokeAlone(t, key);
        AdvancesTransitive(old(service.world), before, service.world);
      }
    }

    method StageAloneNow(t: ThreadId, slot: Slot, key: Key) returns (id: IntentId, ok: bool)
      requires Is(t, IssuedAlone(slot, key))
      modifies service
      ensures Advances(old(service.world), service.world)
      ensures Is(t, if ok then Compensating(Job(key, id, MarkStage)) else UntrackedAlone(key))
      ensures ok ==>
        key in service.world.db.intents
        && service.world.db.intents[key] == Intent(id, Provisional, service.world.db.now + 30, Free)
      ensures service.faults == old(service.faults) + if ok then 0 else 1
    {
      id := service.NewIntentId();
      assert KeyOk(service.world.db, key) && Holds(service.world.db, t, service.world.threads[t]);
      var outcome := service.AnyOutcome();
      service.Do(t, Move.StageAlone(id, outcome));
      ok := outcome == Done;
    }

    method RevokeAlone(t: ThreadId, key: Key) returns (ok: bool)
      requires Is(t, UntrackedAlone(key))
      modifies service
      ensures Advances(old(service.world), service.world) && t !in service.world.threads
      ensures ok ==> key in service.world.db.acked
      ensures Reported(old(service.faults), service.faults, ok)
    {
      service.Interleave(t);
      ghost var before := service.world;
      var outcome := service.AnyOutcome();
      service.Do(t, Move.RevokeAlone(outcome));
      AdvancesTransitive(old(service.world), before, service.world);
      ok := outcome == Done;
    }

    /** The key is staged, its row cannot be stored any more, and compensation follows. */
    method GoOnAlone(t: ThreadId, slot: Slot, key: Key) returns (revoked: bool)
      requires Is(t, IssuedAlone(slot, key))
      modifies service
      ensures Advances(old(service.world), service.world) && t !in service.world.threads
      ensures revoked ==> key in service.world.db.acked
      ensures service.faults >= old(service.faults) && (service.faults == old(service.faults) ==> revoked)
    {
      var id, staged;
      id, staged, revoked := StageAlone(t, slot, key);
      if !staged { return; }
      ghost var before := service.world;
      revoked := Compensate(t, key, id);
      AdvancesTransitive(old(service.world), before, service.world);
    }

    /** The transaction is rolled back while upstream is asked for a key. */
    method LoseWhileIssuing(t: ThreadId, slot: Slot, generation: nat, upstream: Upstream)
      requires Is(t, Issuing(slot, generation))
      modifies service
      ensures Advances(old(service.world), service.world) && t !in service.world.threads
      ensures service.faults >= old(service.faults)
    {
      service.Do(t, CutOff);
      ghost var before := service.world;
      service.Interleave(t);
      AdvancesTransitive(old(service.world), before, service.world);
      before := service.world;
      if upstream.Issues? { AnswerAlone(t, slot, upstream.ttl); } else { RollBack(t); }
      AdvancesTransitive(old(service.world), before, service.world);
    }

    method AnswerAlone(t: ThreadId, slot: Slot, ttl: int)
      requires Is(t, IssuingAlone(slot))
      modifies service
      ensures Advances(old(service.world), service.world) && t !in service.world.threads
      ensures service.faults >= old(service.faults)
    {
      var key := NewKey();
      service.Do(t, IssueAlone(key, service.world.db.now + if ValidTtl(ttl) then ttl else MAXIMUM_KEY_TTL));
      ghost var before := service.world;
      var revoked := GoOnAlone(t, slot, key);
      AdvancesTransitive(old(service.world), before, service.world);
    }

    /** The transaction is rolled back after upstream has answered. */
    method LoseAfterIssue(t: ThreadId, slot: Slot, generation: nat, key: Key)
      requires Is(t, Issued(slot, generation, key))
      modifies service
      ensures Advances(old(service.world), service.world) && t !in service.world.threads
      ensures service.faults >= old(service.faults)
    {
      service.Do(t, CutOff);
      ghost var before := service.world;
      var revoked := GoOnAlone(t, slot, key);
      AdvancesTransitive(old(service.world), before, service.world);
    }

    /** IssueAuthKeyWithTTL, unless the transaction is rolled back around it. */
    method IssueInside(t: ThreadId, slot: Slot, generation: nat, upstream: Upstream, ghost locked: World, ghost met: World)
      returns (issued: Option<Key>, answer: Answer, ghost listed: World)
      requires Is(t, Issuing(slot, generation)) && Advances(locked, met) && Advances(met, service.world)
      modifies service
      ensures issued.Some? ==>
        && Is(t, Issued(slot, generation, issued.value)) && Advances(met, service.world)
        && service.faults == old(service.faults) && upstream.Issues? && issued.value !in met.db.info
      ensures issued.None? ==> Ends(t, answer, Trail(locked, met, listed), slot, upstream, old(service.faults))
    {
      ghost var before := service.world;
      var lasting := service.AnyOutcome();
      if lasting != Done {
        LoseWhileIssuing(t, slot, generation, upstream);
        AdvancesTransitive(met, before, service.world);
        AdvancesSelf(service.world);
        return None, Broken, service.world;
      }
      issued, answer, listed := IssueUpstream(t, slot, generation, upstream, locked, met);
    }

    /** A key for the caller: issued, staged, stored and finalized. */
    method IssueKey(t: ThreadId, slot: Slot, generation: nat, upstream: Upstream, ghost locked: World, ghost read: World)
      returns (answer: Answer, ghost met: World, ghost listed: World)
      requires Is(t, Issuing(slot, generation)) && Advances(locked, read) && Advances(read, service.world)
      requires slot.binding in locked.db.creds && locked.db.creds[slot.binding].generation == generation
      requires !Reusable(read.db, slot)
      modifies service
      ensures Ends(t, answer, Trail(locked, met, listed), slot, upstream, old(service.faults))
    {
      met := read;
      var issued;
      issued, answer, listed := IssueInside(t, slot, generation, upstream, locked, read);
      if issued.None? { return; }
      answer, met := KeepIssued(t, slot, generation, issued.value, upstream, locked, read);
      listed := service.world;
    }

    /** What follows the issue of a key, unless the transaction is rolled back just then. */
    method KeepIssued(t: ThreadId, slot: Slot, generation: nat, key: Key, upstream: Upstream,
                      ghost locked: World, ghost read: World)
      returns (answer: Answer, ghost met: World)
      requires Is(t, Issued(slot, generation, key)) && Advances(locked, read) && Advances(read, service.world)
      requires slot.binding in locked.db.creds && locked.db.creds[slot.binding].generation == generation
      requires upstream.Issues? && key !in read.db.info && !Reusable(read.db, slot)
      modifies service
      ensures Ends(t, answer, Trail(locked, met, service.world), slot, upstream, old(service.faults))
    {
      ghost var before := service.world;
      var lasting := service.AnyOutcome();
      var id, ok, revoked := 0, false, false;
      if lasting == Done { id, ok, revoked := StageIssued(t, slot, generation, key); }
      else { LoseAfterIssue(t, slot, generation, key); }
      AdvancesTransitive(read, before, service.world);
      met, answer := read, Broken;
      if ok { answer, met := StoreAndFinalize(t, slot, generation, key, id, upstream, locked, read); }
      else { AdvancesSelf(service.world); }
    }

    // ---------- GetAuthKey ----------

    /** The stored key is returned when the transaction commits. */
    method ReturnStored(t: ThreadId, slot: Slot, key: Key) returns (ok: bool)
      requires Is(t, Reusing(slot, key)) && OfSlot(service.world.db, slot, key)
      modifies service
      ensures Advances(old(service.world), service.world) && t !in service.world.threads
      ensures ok ==> HandedOut(service.world.db, slot, key)
      ensures Reported(old(service.faults), service.faults, ok)
    {
      service.Interleave(t);
      ghost var before := service.world;
      assert KeyKept(old(service.world).db, before.db, key);
      ok := CommitStored(t, slot, key);
      AdvancesTransitive(old(service.world), before, service.world);
    }

    method CommitStored(t: ThreadId, slot: Slot, key: Key) returns (ok: bool)
      requires Is(t, Reusing(slot, key)) && OfSlot(service.world.db, slot, key)
      modifies service
      ensures Advances(old(service.world), service.world) && t !in service.world.threads
      ensures ok ==> HandedOut(service.world.db, slot, key)
      ensures Reported(old(service.faults), service.faults, ok)
    {
      assert Holds(service.world.db, t, service.world.threads[t]);
      var outcome := service.AnyOutcome();
      ReusedGoesOut(service.world.db, t, slot, key, outcome);
      service.Do(t, Move.Commit(outcome));
      ok := outcome == Done;
    }

    /**
     GetAuthKey. Unless something goes wrong, the caller gets the key of the visible row if it lives long enough, a new
     one if there is none and upstream issues it, and otherwise the reason that stood in the way.
     */
    method GetAuthKey(t: ThreadId, slot: Slot, upstream: Upstream) returns (answer: Answer, ghost trail: Trail)
      requires Inv(service.world) && t !in service.world.threads
      modifies service
      ensures Advances(old(service.world), trail.locked) && InOrder(trail, service.world) && t !in service.world.threads
      ensures Explained(answer, trail, service.world, slot, upstream, service.faults - old(service.faults))
    {
      var generation, stop;
      ghost var locked, met, listed;
      generation, stop, locked := LockCredential(t, slot, upstream);
      trail := Trail(locked, locked, locked);
      if stop.Some? { return stop.value, trail; }
      var stored;
      stop, stored, met, listed := CheckAndRead(t, slot, generation, upstream, locked);
      trail := Trail(locked, met, listed);
      if stop.Some? { return stop.value, trail; }
      if stored.None? {
        answer, met, listed := IssueKey(t, slot, generation, upstream, locked, met);
        trail := Trail(locked, met, listed);
        return;
      }
      ghost var before := service.world;
      var ok := ReturnStored(t, slot, stored.value);
      AdvancesTransitive(met, before, service.world);
      AdvancesSelf(service.world);
      trail := Trail(locked, met, service.world);
      answer := if ok then Given(stored.value) else Broken;
    }

    // ---------- ConfirmDeliverable ----------

    /** The transaction of ConfirmDeliverable starts with the credential row lock, or not at all. */
    method LockForDelivery(t: ThreadId, d: Delivery) returns (refusal: Option<Confirmation>, binding: Binding, ghost at: World)
      requires Inv(service.world) && t !in service.world.threads
      modifies service
      ensures Advances(old(service.world), at) && Advances(at, service.world)
      ensures refusal.None? ==>
        && Is(t, Confirming(d, binding, RowLocked)) && service.faults == old(service.faults)
        && d.key in at.db.info && at.db.info[d.key].slot.binding == binding
      ensures refusal.Some? ==> t !in service.world.threads && Refuses(refusal.value, at, d, service.faults - old(service.faults))
    {
      service.Interleave(t);
      at := service.world;
      AdvancesSelf(at);
      refusal, binding := None, 0;
      if !IsOffered(service.world.db, d.key) { return Some(Undeliverable), 0, at; }
      binding := service.world.db.info[d.key].slot.binding;
      if binding !in service.world.db.creds { return Some(Undeliverable), binding, at; }
      if binding in service.world.db.locks {
        service.WaitInVain(binding);
        return Some(Interrupted), binding, at;
      }
      AdvancesByStep(service.world, Begin(t, Request.ConfirmDeliverable(d)));
      service.world := Apply(service.world, Begin(t, Request.ConfirmDeliverable(d)));
    }

    /** One read of ConfirmDeliverable, at the moment `at`; when it refuses, the transaction is rolled back. */
    method PassGate(t: ThreadId, d: Delivery, binding: Binding, gate: Gate) returns (ok: bool, ghost at: World)
      requires Is(t, Confirming(d, binding, gate)) && gate != NothingPending
      modifies service`world
      ensures Advances(old(service.world), service.world) && Advances(old(service.world), at) && Advances(at, service.world)
      ensures if ok then Is(t, Confirming(d, binding, NextGate(gate))) else t !in service.world.threads
      ensures ok <==> Passes(at.db, Confirming(d, binding, gate))
      ensures !ok ==> !MayDeliver(at.db, binding, d.consumer, d.versions)
    {
      service.Interleave(t);
      at := service.world;
      ok := Passes(service.world.db, service.world.threads[t]);
      if ok { service.Do(t, Move.PassGate); } else {
        ShutGateIsARefusal(at.db, d, binding, gate);
        RollBack(t);
      }
      AdvancesTransitive(old(service.world), at, service.world);
    }

    /** Two reads, one after the other. */
    method PassTwoGates(t: ThreadId, d: Delivery, binding: Binding, gate: Gate) returns (ok: bool, ghost at: World)
      requires Is(t, Confirming(d, binding, gate)) && gate != NothingPending && NextGate(gate) != NothingPending
      modifies service`world
      ensures Advances(old(service.world), service.world) && Advances(old(service.world), at) && Advances(at, service.world)
      ensures if ok then Is(t, Confirming(d, binding, NextGate(NextGate(gate)))) else t !in service.world.threads
      ensures !ok ==> !MayDeliver(at.db, binding, d.consumer, d.versions)
    {
      ok, at := PassGate(t, d, binding, gate);
      if !ok { return; }
      ghost var before := service.world;
      ok, at := PassGate(t, d, binding, NextGate(gate));
      AdvancesTransitive(old(service.world), before, at);
      AdvancesTransitive(old(service.world), before, service.world);
    }

    /** All reads in their order: generation and fence of the ticket first. */
    method PassAllGates(t: ThreadId, d: Delivery, binding: Binding) returns (ok: bool, ghost at: World)
      requires Is(t, Confirming(d, binding, RowLocked))
      modifies service`world
      ensures Advances(old(service.world), service.world) && Advances(old(service.world), at) && Advances(at, service.world)
      ensures if ok then Is(t, Confirming(d, binding, NothingPending)) else t !in service.world.threads
      ensures !ok ==> !MayDeliver(at.db, binding, d.consumer, d.versions)
    {
      ok, at := PassTwoGates(t, d, binding, RowLocked);
      if !ok { return; }
      ghost var before := service.world;
      ok, at := PassLastGates(t, d, binding);
      AdvancesTransitive(old(service.world), before, at);
      AdvancesTransitive(old(service.world), before, service.world);
    }

    /** The status, and the two counts of HasRevocationPending. */
    method PassLastGates(t: ThreadId, d: Delivery, binding: Binding) returns (ok: bool, ghost at: World)
      requires Is(t, Confirming(d, binding, FenceCleared))
      modifies service`world
      ensures Advances(old(service.world), service.world) && Advances(old(service.world), at) && Advances(at, service.world)
      ensures if ok then Is(t, Confirming(d, binding, NothingPending)) else t !in service.world.threads
      ensures !ok ==> !MayDeliver(at.db, binding, d.consumer, d.versions)
    {
      ok, at := PassGate(t, d, binding, FenceCleared);
      if !ok { return; }
      ghost var before := service.world;
      ok, at := PassTwoGates(t, d, binding, StatusActive);
      AdvancesTransitive(old(service.world), before, at);
      AdvancesTransitive(old(service.world), before, service.world);
    }

    /** The commit; the response goes out only when the service sees it succeed. */
    method CommitDelivery(t: ThreadId, d: Delivery, binding: Binding) returns (ok: bool)
      requires Is(t, Confirming(d, binding, NothingPending))
      modifies service
      ensures Advances(old(service.world), service.world) && t !in service.world.threads
      ensures ok ==> ConfirmedNow(service.world.db, d)
      ensures service.faults == old(service.faults) + if ok then 0 else 1
    {
      service.Interleave(t);
      ghost var before := service.world;
      assert Holds(before.db, t, before.threads[t]);
      var outcome := service.AnyOutcome();
      service.Do(t, Move.Commit(outcome));
      AdvancesTransitive(old(service.world), before, service.world);
      ok := outcome == Done;
    }

    /**
     ConfirmDeliverable, among all other requests. When it says yes, the delivery is recorded, and the ticket clears the
     fence and names the generation in force at that moment, not only when they were read. When it says no although
     nothing has gone wrong, at the moment `at` the tables did not allow the delivery.
     */
    method ConfirmDeliverable(t: ThreadId, d: Delivery) returns (confirmation: Confirmation, ghost at: World)
      requires Inv(service.world) && t !in service.world.threads
      modifies service
      ensures Advances(old(service.world), at) && Advances(at, service.world) && t !in service.world.threads
      ensures confirmation.Deliverable? ==> ConfirmedNow(service.world.db, d) && service.faults == old(service.faults)
      ensures !confirmation.Deliverable? ==> Refuses(confirmation, at, d, service.faults - old(service.faults))
    {
      var refusal, binding;
      refusal, binding, at := LockForDelivery(t, d);
      if refusal.Some? { return refusal.value, at; }
      ghost var locked, before := at, service.world;
      confirmation, at := ConfirmLocked(t, d, binding);
      AdvancesTransitive(locked, before, at);
      AdvancesTransitive(old(service.world), locked, at);
      assert KeyKept(locked.db, at.db, d.key);
    }

    /** ConfirmDeliverable under the row lock. */
    method ConfirmLocked(t: ThreadId, d: Delivery, binding: Binding) returns (confirmation: Confirmation, ghost at: World)
      requires Is(t, Confirming(d, binding, RowLocked))
      modifies service
      ensures Advances(old(service.world), at) && Advances(at, service.world) && t !in service.world.threads
      ensures confirmation.Deliverable? ==> ConfirmedNow(service.world.db, d) && service.faults == old(service.faults)
      ensures confirmation.Undeliverable? ==>
        service.faults == old(service.faults) && !MayDeliver(at.db, binding, d.consumer, d.versions)
      ensures confirmation.Interrupted? ==> service.faults == old(service.faults) + 1
    {
      var ok;
      ok, at := PassAllGates(t, d, binding);
      if !ok { return Undeliverable, at; }
      at := service.world;
      ok := CommitDelivery(t, d, binding);
      confirmation := if ok then Deliverable else Interrupted;
    }
  }

  /** Why a confirmation is not a yes; `spent` counts what has gone wrong. */
  ghost predicate Refuses(c: Confirmation, at: World, d: Delivery, spent: int) {
    match c
    case Deliverable => false
    case Undeliverable =>
      spent == 0
      && (IsOffered(at.db, d.key) ==> !MayDeliver(at.db, at.db.info[d.key].slot.binding, d.consumer, d.versions))
    case Interrupted => spent == 1
  }

}
