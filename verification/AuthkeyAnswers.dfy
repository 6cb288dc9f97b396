/**
 What the answers of GetAuthKey and ConfirmDeliverable mean, on the columns of the tables: every answer but a failure
 of some statement is explained by what the request has met.
 */
module AuthkeyAnswers {
  import opened Authorization
  import opened SagaState
  import opened SagaSteps
  import opened SagaInvariant
  import opened ArtifactLifecycle

  /** What upstream does when it is asked for a key: it issues one for so many seconds, rejects the credential, or fails. */
  datatype Upstream = Issues(ttl: int) | Rejects | Fails

  const MAXIMUM_KEY_TTL: nat := 300

  predicate ValidTtl(ttl: int) {
    MINIMUM_RETURN_TTL <= ttl <= MAXIMUM_KEY_TTL
  }

  datatype Answer =
    | Given(key: Key)
    | NoCredential
    | RequiresAttention(listed: seq<Key>, result: Result)          // inactive: the binding was invalidated
    | Rejected(listed: seq<Key>, result: Result, committed: bool)  // by upstream: likewise, and the credential is not active any more
    | Blocked                                                      // a revocation is pending
    | Withdrawn(key: Key, failed: bool, revoked: bool)             // issued, but given up: compensation ran
    | Broken                                                       // something went wrong

  /** When the request had the row lock, when it met what decided, and when it listed the rows it invalidated. */
  datatype Trail = Trail(locked: World, met: World, listed: World)

  ghost predicate InOrder(trail: Trail, end: World) {
    Advances(trail.locked, trail.met) && Advances(trail.met, trail.listed) && Advances(trail.listed, end)
  }

  predicate OfSlot(db: Db, slot: Slot, key: Key) {
    key in db.info && db.info[key].slot == slot
  }

  /** The key belongs to the slot, its row was committed, and unless it has expired it counts as handed out. */
  ghost predicate HandedOut(db: Db, slot: Slot, key: Key) {
    && OfSlot(db, slot, key) && key in db.committed
    && (key in db.returned || Expired(db, key))
  }

  /** The visible row of the slot has a key with at least five seconds to live. */
  predicate Reusable(db: Db, slot: Slot) {
    && slot in db.rows && !db.rows[slot].pending
    && db.rows[slot].key in db.info && db.info[db.rows[slot].key].expires >= db.now + 5
  }

  predicate RevocationInTheWay(db: Db, binding: Binding) {
    || (exists s :: s in db.rows && s.binding == binding && db.rows[s].pending)
    || (exists k :: k in db.intents && k in db.info && db.info[k].slot.binding == binding)
  }

  /** The credential is not as it was at the lock and active, or a row of the binding is pending. */
  predicate Unstorable(db: Db, locked: Db, binding: Binding) {
    || binding !in locked.creds || binding !in db.creds
    || db.creds[binding] != Credential(locked.creds[binding].generation, true)
    || exists s :: s in db.rows && s.binding == binding && db.rows[s].pending
  }

  /** Why a request ends before it has a key; `spent` counts what has gone wrong. */
  ghost predicate Stopped(answer: Answer, trail: Trail, end: World, slot: Slot, spent: int) {
    match answer
    case NoCredential => spent == 0 && slot.binding !in trail.locked.db.creds
    case RequiresAttention(listed, result) =>
      && slot.binding in trail.met.db.creds && !trail.met.db.creds[slot.binding].active
      && Invalidated(trail.listed, end, slot.binding, listed, result) && Reported(0, spent, result == Success)
    case Blocked => spent == 0 && RevocationInTheWay(trail.met.db, slot.binding)
    case Broken => spent > 0
    case _ => false
  }

  /** The key was reused from its row, or issued anew because there was none to reuse. */
  ghost predicate RightlyGiven(key: Key, met: Db, slot: Slot, upstream: Upstream) {
    if Reusable(met, slot) then key == met.rows[slot].key
    else key !in met.info && upstream.Issues? && 5 <= upstream.ttl <= 300
  }

  /** The answer of GetAuthKey is the one its request deserves. */
  ghost predicate Explained(answer: Answer, trail: Trail, end: World, slot: Slot, upstream: Upstream, spent: int) {
    match answer
    case Given(key) => spent == 0 && HandedOut(end.db, slot, key) && RightlyGiven(key, trail.met.db, slot, upstream)
    case Rejected(listed, result, committed) =>
      && upstream.Rejects?
      && Invalidated(trail.listed, end, slot.binding, listed, result) && Reported(0, spent, result == Success && committed)
      && (committed ==> slot.binding in end.db.creds && !end.db.creds[slot.binding].active)
    case Withdrawn(key, failed, revoked) =>
      && upstream.Issues? && Reported(if failed then 1 else 0, spent, revoked)
      && (revoked ==> key in end.db.acked && !InRow(end.db, key))
      && (failed || upstream.ttl < 5 || upstream.ttl > 300 || Unstorable(trail.met.db, trail.locked.db, slot.binding)
          || IsReady(trail.met.db, key))
    case _ => Stopped(answer, trail, end, slot, spent)
  }

  // ---------- Single statements ----------

  lemma ReusedGoesOut(db: Db, t: ThreadId, slot: Slot, key: Key, outcome: Outcome)
    requires Holds(db, t, Reusing(slot, key)) && OfSlot(db, slot, key)
    ensures outcome == Done ==> HandedOut(CommitIn(db, Reusing(slot, key), outcome).db, slot, key)
  {
  }

  lemma FinalizedGoesOut(db: Db, t: ThreadId, slot: Slot, key: Key, id: IntentId)
    requires Holds(db, t, Finalizing(key, id)) && OfSlot(db, slot, key) && !FinalizeRefused(db.intents, id)
    ensures var db' := FinalizeIn(db, key, id, Done).db; HandedOut(db', slot, key) && NoIntentWith(db', id)
  {
  }

  lemma RefusedIsReady(db: Db, t: ThreadId, key: Key, id: IntentId)
    requires Global(db) && Holds(db, t, Finalizing(key, id)) && FinalizeRefused(db.intents, id)
    ensures IsReady(db, key)
  {
    var k :| k in db.intents && db.intents[k].id == id && db.intents[k].state != Provisional;
    assert KeyOk(db, k);
  }

  /** What ReadArtifact finds. */
  lemma WhatTheRowAllows(db: Db, slot: Slot, generation: nat)
    requires RowOk(db, slot)
    ensures ReadStored(db, slot, generation) ==
      if Reusable(db, slot) then Reusing(slot, db.rows[slot].key)
      else if slot !in db.rows || db.rows[slot].pending || Expired(db, db.rows[slot].key) then Issuing(slot, generation)
      else Listing(Cause(slot.binding, true, Purpose.Reissue(slot, generation)))
  {
  }

  // ---------- ConfirmDeliverable ----------

  datatype Confirmation = Deliverable | Undeliverable | Interrupted

  /** A key GetAuthKey has given out, if only as an expired one. */
  predicate IsOffered(db: Db, key: Key) {
    key in db.info && (key in db.returned || Expired(db, key))
  }

  /** Ticket, status and both counts allow the delivery. */
  predicate MayDeliver(db: Db, binding: Binding, consumer: Consumer, v: Versions) {
    && binding in db.creds && db.creds[binding].generation == v.generation && db.creds[binding].active
    && ((binding, consumer) in db.fences ==>
          && v.grant >= db.fences[(binding, consumer)].grant && v.owner >= db.fences[(binding, consumer)].owner
          && v.consumer >= db.fences[(binding, consumer)].consumer && v.entry >= db.fences[(binding, consumer)].entry)
    && !RevocationInTheWay(db, binding)
  }

  lemma ShutGateIsARefusal(db: Db, d: Delivery, binding: Binding, gate: Gate)
    requires gate != NothingPending && !Passes(db, Confirming(d, binding, gate))
    ensures !MayDeliver(db, binding, d.consumer, d.versions)
  {
  }

  /** The delivery is recorded, and its ticket clears the fence and names the generation now in force. */
  ghost predicate ConfirmedNow(db: Db, d: Delivery) {
    && d in db.delivered && IsOffered(db, d.key)
    && var b := db.info[d.key].slot.binding;
       && Clears(d.versions, FenceOf(db, b, d.consumer))
       && b in db.creds && db.creds[b] == Credential(d.versions.generation, true)
  }

}
