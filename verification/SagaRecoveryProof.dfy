/** The recovery worker keeps the saga's invariant. */
module SagaRecoveryProof {
  import opened SagaState
  import opened SagaSteps
  import opened SagaInvariant
  import opened SagaProof

  function ClaimedIn(db: Db, t: ThreadId, token: Token, keys: seq<Key>, at: nat): Db {
    db.(intents := LeaseAll(db.intents, keys, Held(token, at + REVOCATION_LEASE)),
        tokenOwner := db.tokenOwner[token := t])
  }

  lemma ClaimedInSound(db: Db, t: ThreadId, token: Token, keys: seq<Key>, at: nat)
    requires Global(db) && token !in db.tokenOwner
    ensures Global(ClaimedIn(db, t, token, keys, at)) && Guarantee(db, ClaimedIn(db, t, token, keys, at), t)
  {
    var db' := ClaimedIn(db, t, token, keys, at);
    forall k ensures KeyOk(db', k) && KeyStep(db, db', t, k) { assert KeyOk(db, k); }
    forall s ensures RowOk(db', s) && RowStep(db, db', t, s) { assert RowOk(db, s); }
    forall i ensures IdOk(db', i) { assert IdOk(db, i); }
  }

  lemma ClaimedQueueHolds(db: Db, t: ThreadId, token: Token, keys: seq<Key>, at: nat)
    requires Global(db) && CanBegin(db, t, RetryPending(token, keys, at)) && Global(ClaimedIn(db, t, token, keys, at))
    ensures QueueHolds(ClaimedIn(db, t, token, keys, at), t, token, Snapshot(db.intents, keys))
  {
    var db', queue := ClaimedIn(db, t, token, keys, at), Snapshot(db.intents, keys);
    forall i | 0 <= i < |queue| ensures ClaimHolds(db', token, queue[i]) {
      assert KeyOk(db, keys[i]) && KeyOk(db', keys[i]);
    }
  }

  lemma ClaimSound(db: Db, t: ThreadId, token: Token, keys: seq<Key>, at: nat)
    requires Global(db) && CanBegin(db, t, RetryPending(token, keys, at))
    ensures Sound(db, t, BeginIn(db, t, RetryPending(token, keys, at)))
  {
    ClaimedInSound(db, t, token, keys, at);
    ClaimedQueueHolds(db, t, token, keys, at);
  }

  /** A worker's own later claims survive its own step on another key. */
  lemma QueueKept(db: Db, db': Db, t: ThreadId, token: Token, queue: seq<Claimed>, key: Key)
    requires QueueHolds(db, t, token, queue) && Guarantee(db, db', t)
    requires forall k :: k in db'.intents && k != key ==>
      k in db.intents && (db'.intents[k] == db.intents[k] || db'.intents[k].lease.Free?)
    requires forall i :: 0 <= i < |queue| ==> queue[i].key != key
    ensures QueueHolds(db', t, token, queue)
  {
    assert TokenStep(db, db', token);
    forall i | 0 <= i < |queue| ensures ClaimHolds(db', token, queue[i]) {
      var c := queue[i];
      assert ClaimHolds(db, token, c);
      assert KeyStep(db, db', t, c.key) && IdStep(db, db', c.id);
      ExcusedStable(db, db', c.key);
    }
  }

  /** The provisional intent of a key without a visible row becomes ready: nobody can be given the key any more. */
  lemma CondemnSound(db: Db, t: ThreadId, token: Token, c: Claimed)
    requires Global(db) && ClaimHolds(db, token, c) && c.state == Provisional
    requires token in db.tokenOwner && db.tokenOwner[token] == t
    requires Leased(db.intents, c.key, c.id, token) && !KeptByRow(db, c.key)
    requires ResolveNeedsLock(db, c, token) ==> db.info[c.key].slot.binding !in db.locks
    ensures var db' := CondemnIn(db, c.key);
            Global(db') && Guarantee(db, db', t) && JobHolds(db', Job(c.key, c.id, CallStage))
  {
    var db' := CondemnIn(db, c.key);
    assert KeyOk(db, c.key);
    assert RowOk(db, db.info[c.key].slot);
    forall k ensures KeyOk(db', k) && KeyStep(db, db', t, k) {
      assert KeyOk(db, k);
      if k in db.info { assert RowOk(db, db.info[k].slot); }
    }
    forall s ensures RowOk(db', s) && RowStep(db, db', t, s) { assert RowOk(db, s); }
    forall i ensures IdOk(db', i) { assert IdOk(db, i); }
  }

  lemma KeepSound(db: Db, t: ThreadId, key: Key)
    requires Global(db) && KeptByRow(db, key) && key in db.intents && db.intents[key].state == Provisional
    ensures var db' := db.(intents := db.intents - {key}); Global(db') && Guarantee(db, db', t)
  {
    var db' := db.(intents := db.intents - {key});
    assert KeyOk(db, key);
    forall k ensures KeyOk(db', k) && KeyStep(db, db', t, k) { assert KeyOk(db, k); }
    forall s ensures RowOk(db', s) && RowStep(db, db', t, s) { assert RowOk(db, s); }
    forall i ensures IdOk(db', i) { assert IdOk(db, i); }
  }

  lemma ResolveSound(db: Db, t: ThreadId, th: Thread, outcome: Outcome)
    requires Global(db) && Holds(db, t, th) && th.Recovering? && |th.queue| > 0
    requires th.queue[0].state == Provisional
    requires outcome != Failed && ResolveNeedsLock(db, th.queue[0], th.token) ==>
      db.info[th.queue[0].key].slot.binding !in db.locks
    ensures Sound(db, t, ResolveIn(db, th, outcome))
  {
    SameDb(db, t);
    var claimed, rest := th.queue[0], th.queue[1..];
    assert QueueHolds(db, t, th.token, rest);
    assert ClaimHolds(db, th.token, claimed);
    if outcome != Failed && Leased(db.intents, claimed.key, claimed.id, th.token) {
      if KeptByRow(db, claimed.key) {
        KeepSound(db, t, claimed.key);
        QueueKept(db, db.(intents := db.intents - {claimed.key}), t, th.token, rest, claimed.key);
      } else {
        CondemnSound(db, t, th.token, claimed);
        QueueKept(db, CondemnIn(db, claimed.key), t, th.token, rest, claimed.key);
      }
    }
  }

  lemma TakeReadySound(db: Db, t: ThreadId, th: Thread)
    requires Global(db) && Holds(db, t, th) && th.Recovering? && |th.queue| > 0 && th.queue[0].state == Ready
    ensures Sound(db, t, After(db, Some(RecoveringOne(th.token, th.queue[1..], Job(th.queue[0].key, th.queue[0].id, CallStage)))))
  {
    SameDb(db, t);
    assert ClaimHolds(db, th.token, th.queue[0]);
    assert QueueHolds(db, t, th.token, th.queue[1..]);
  }

  lemma ReleaseSound(db: Db, t: ThreadId, th: Thread, outcome: Outcome)
    requires Global(db) && Holds(db, t, th) && th.Releasing?
    ensures Sound(db, t, After(ReleasedIn(db, th.id, th.token, outcome), Some(Recovering(th.token, th.queue))))
  {
    SameDb(db, t);
    if outcome != Failed {
      var db' := db.(intents := ReleaseClaim(db.intents, th.id, th.token));
      forall k ensures KeyOk(db', k) && KeyStep(db, db', t, k) { assert KeyOk(db, k); }
      forall s ensures RowOk(db', s) && RowStep(db, db', t, s) { assert RowOk(db, s); }
      forall i ensures IdOk(db', i) { assert IdOk(db, i); }
      assert TokenStep(db, db', th.token);
      forall i | 0 <= i < |th.queue| ensures ClaimHolds(db', th.token, th.queue[i]) {
        assert ClaimHolds(db, th.token, th.queue[i]);
      }
    }
  }

  /** A recovery statement on one key leaves the worker's later claims alone. */
  lemma QueueAfterRevoke(db: Db, t: ThreadId, token: Token, queue: seq<Claimed>, j: Job, outcome: Outcome)
    requires Global(db) && QueueHolds(db, t, token, queue) && JobHolds(db, j) && j.stage != MarkStage
    requires Guarantee(db, RevokeIn(db, j, outcome, true), t)
    ensures QueueHolds(RevokeIn(db, j, outcome, true), t, token, queue)
  {
    var db' := RevokeIn(db, j, outcome, true);
    assert IntentsShrink(db, db') by {
      match j.stage
      case CallStage =>
      case RowStage =>
      case IntentStage =>
    }
    assert TokenStep(db, db', token);
    forall i | 0 <= i < |queue| ensures ClaimHolds(db', token, queue[i]) {
      var c := queue[i];
      assert ClaimHolds(db, token, c);
      assert KeyStep(db, db', t, c.key) && IdStep(db, db', c.id);
      ExcusedStable(db, db', c.key);
    }
  }

  ghost predicate IntentsShrink(db: Db, db': Db) {
    forall k :: k in db'.intents ==> k in db.intents && db'.intents[k] == db.intents[k]
  }

  lemma RecoverOneSound(db: Db, t: ThreadId, th: Thread, outcome: Outcome)
    requires Global(db) && Holds(db, t, th) && th.RecoveringOne?
    ensures Sound(db, t, RevokeNext(db, th, outcome))
  {
    RevokeInSound(db, t, th.job, outcome, true);
    QueueAfterRevoke(db, t, th.token, th.queue, th.job, outcome);
    assert KeyStep(db, RevokeIn(db, th.job, outcome, true), t, th.job.key);
    ExcusedStable(db, RevokeIn(db, th.job, outcome, true), th.job.key);
  }

}
