/** InvalidateBinding and the transactions around it keep the saga's invariant. */
module SagaInvalidationProof {
  import opened SagaState
  import opened SagaSteps
  import opened SagaInvariant
  import opened SagaProof

  lemma ListRowsSound(db: Db, t: ThreadId, th: Thread, keys: seq<Key>)
    requires Global(db) && Holds(db, t, th) && th.Listing? && Lists(db, th.cause.binding, keys)
    ensures Sound(db, t, After(db, Some(StagedAll(th.cause, keys, []))))
  {
    SameDb(db, t);
    forall i | 0 <= i < |keys|
      ensures keys[i] in db.committed && keys[i] in db.info && db.info[keys[i]].slot.binding == th.cause.binding
    {
      assert IsKeyOf(db, th.cause.binding, keys[i]);
      var s :| s in db.rows && s.binding == th.cause.binding && db.rows[s].key == keys[i];
      assert RowOk(db, s);
    }
  }

  /** Staging a listed key as ready: its row, if any, is now doubly safe. */
  lemma StageReadySound(db: Db, t: ThreadId, key: Key, id: IntentId)
    requires Global(db) && key in db.committed && id !in db.idOf
    ensures var db' := StageIn(db, key, id, Ready); Global(db') && Guarantee(db, db', t)
  {
    var db' := StageIn(db, key, id, Ready);
    assert KeyOk(db, key);
    forall k ensures KeyOk(db', k) && KeyStep(db, db', t, k) { assert KeyOk(db, k); }
    forall s ensures RowOk(db', s) && RowStep(db, db', t, s) { assert RowOk(db, s); }
    forall i ensures IdOk(db', i) { assert IdOk(db, i); }
  }

  /** Once every listed key is staged, the jobs cover the rows the list covered. */
  lemma ListedCovers(db: Db, b: Binding, listed: seq<Key>, jobs: seq<Job>)
    requires |jobs| == |listed| && forall i :: 0 <= i < |jobs| ==> jobs[i].key == listed[i]
    requires forall s :: s in db.rows && s.binding == b ==> db.rows[s].key in listed || Expired(db, db.rows[s].key)
    ensures Covered(db, b, jobs)
  {
    forall s | s in db.rows && s.binding == b && !Expired(db, db.rows[s].key)
      ensures exists i :: 0 <= i < |jobs| && jobs[i].key == db.rows[s].key
    {
      var i :| 0 <= i < |listed| && listed[i] == db.rows[s].key;
      assert jobs[i].key == listed[i];
    }
  }

  /** The upsert returned the identifier of the stored intent, so the new job names it too. */
  lemma StagedJobsHold(db: Db, t: ThreadId, th: Thread, id: IntentId)
    requires Global(db) && Holds(db, t, th) && th.Staging? && id !in db.idOf
    ensures var key := th.listed[|th.jobs|]; var persisted := if key in db.intents then db.intents[key].id else id;
      JobsHold(StageIn(db, key, id, Ready), th.cause.binding, th.jobs + [Job(key, persisted, MarkStage)])
  {
    var key := th.listed[|th.jobs|];
    assert KeyOk(db, key);
    StageReadySound(db, t, key, id);
    JobsStable(db, StageIn(db, key, id, Ready), t, th.cause.binding, th.jobs, 0);
  }

  /** What the thread knows after the upsert: it stages on, or all its keys are staged. */
  lemma StagedAllHolds(db: Db, t: ThreadId, c: Cause, listed: seq<Key>, jobs: seq<Job>)
    requires CauseHolds(db, t, c) && JobsHold(db, c.binding, jobs) && 0 < |jobs| <= |listed|
    requires forall i :: 0 <= i < |listed| ==>
      listed[i] in db.committed && listed[i] in db.info && db.info[listed[i]].slot.binding == c.binding
    requires forall i :: 0 <= i < |jobs| ==> jobs[i].key == listed[i]
    requires c.held ==> forall s :: s in db.rows && s.binding == c.binding ==> db.rows[s].key in listed || Expired(db, db.rows[s].key)
    ensures Holds(db, t, StagedAll(c, listed, jobs))
  {
    if |jobs| == |listed| && c.held { ListedCovers(db, c.binding, listed, jobs); }
  }

  lemma StagedNext(db: Db, t: ThreadId, th: Thread, id: IntentId)
    requires Global(db) && Holds(db, t, th) && th.Staging? && id !in db.idOf
    ensures Sound(db, t, StageNext(db, th, id, Done))
  {
    var key := th.listed[|th.jobs|];
    StageReadySound(db, t, key, id);
    var persisted := if key in db.intents then db.intents[key].id else id;
    StagedJobsHold(db, t, th, id);
    StagedAllHolds(StageIn(db, key, id, Ready), t, th.cause, th.listed, th.jobs + [Job(key, persisted, MarkStage)]);
  }

  lemma StageListedSound(db: Db, t: ThreadId, th: Thread, id: IntentId, outcome: Outcome)
    requires Global(db) && Holds(db, t, th) && th.Staging? && id !in db.idOf
    ensures Sound(db, t, StageNext(db, th, id, outcome))
  {
    match outcome
    case Failed => SameDb(db, t);
    case Lost => StageReadySound(db, t, th.listed[|th.jobs|], id);
    case Done => StagedNext(db, t, th, id);
  }

  lemma CoveredExcused(db: Db, b: Binding, jobs: seq<Job>)
    requires Covered(db, b, jobs) && JobsHold(db, b, jobs)
    ensures RowsExcused(db, b)
  {
  }

  lemma MarkedSound(db: Db, t: ThreadId, b: Binding)
    requires Global(db)
    ensures var db' := db.(rows := RowsPending(db.rows, b)); Global(db') && Guarantee(db, db', t)
  {
    var db' := db.(rows := RowsPending(db.rows, b));
    forall k ensures KeyOk(db', k) && KeyStep(db, db', t, k) {
      assert KeyOk(db, k);
      if k in db.info { assert RowOk(db, db.info[k].slot); }
    }
    forall s ensures RowOk(db', s) && RowStep(db, db', t, s) { assert RowOk(db, s); }
    forall i ensures IdOk(db', i) { assert IdOk(db, i); }
  }

  lemma MarkRowsSound(db: Db, t: ThreadId, th: Thread, outcome: Outcome)
    requires Global(db) && Holds(db, t, th) && th.Marking?
    ensures Sound(db, t, MarkRowsIn(db, th, outcome))
  {
    SameDb(db, t);
    var b := th.cause.binding;
    if th.cause.held { CoveredExcused(db, b, th.jobs); }
    if outcome != Failed { MarkedSound(db, t, b); }
    if outcome == Done {
      var db' := db.(rows := RowsPending(db.rows, b));
      JobsStable(db, db', t, b, th.jobs, 0);
      NextJobHolds(db', t, th.cause, th.jobs, 0, true);
    }
  }

  /** The next intent of an invalidation, or its end. */
  lemma NextJobHolds(db: Db, t: ThreadId, c: Cause, jobs: seq<Job>, index: nat, clean: bool)
    requires Global(db) && CauseHolds(db, t, c) && JobsHold(db, c.binding, jobs) && index <= |jobs|
    requires c.held ==> Covered(db, c.binding, jobs)
    requires clean ==> AllAcked(db, jobs, index)
    ensures Holds(db, t, NextJob(c, jobs, index, clean))
  {
    if index < |jobs| { assert KeyOk(db, jobs[index].key); }
    if c.held { CoveredExcused(db, c.binding, jobs); }
  }

  lemma RevokeListedSound(db: Db, t: ThreadId, th: Thread, outcome: Outcome)
    requires Global(db) && Holds(db, t, th) && th.Revoking? && th.index < |th.jobs|
    ensures Sound(db, t, RevokeNext(db, th, outcome))
  {
    var c, jobs, index := th.cause, th.jobs, th.index;
    var job := jobs[index].(stage := th.stage);
    var db' := RevokeIn(db, job, outcome, false);
    RevokeInSound(db, t, job, outcome, false);
    JobsStable(db, db', t, c.binding, jobs, index);
    if outcome != Done || th.stage == IntentStage {
      NextJobHolds(db', t, c, jobs, index + 1, th.clean && outcome == Done);
    }
  }

  lemma DroppedSound(db: Db, t: ThreadId, b: Binding)
    requires Global(db)
    ensures var db' := db.(rows := DropBinding(db.rows, b)); Global(db') && Guarantee(db, db', t)
  {
    var db' := db.(rows := DropBinding(db.rows, b));
    forall k ensures KeyOk(db', k) && KeyStep(db, db', t, k) {
      assert KeyOk(db, k);
      if k in db.info { assert RowOk(db, db.info[k].slot); }
    }
    forall s ensures RowOk(db', s) && RowStep(db, db', t, s) { assert RowOk(db, s); }
    forall i ensures IdOk(db', i) { assert IdOk(db, i); }
  }

  lemma DeleteRowsSound(db: Db, t: ThreadId, th: Thread, outcome: Outcome)
    requires Global(db) && Holds(db, t, th) && th.Deleting?
    ensures Sound(db, t, DeleteRowsIn(db, th, outcome))
  {
    SameDb(db, t);
    if th.cause.held { CoveredExcused(db, th.cause.binding, th.jobs); }
    if outcome != Failed { DroppedSound(db, t, th.cause.binding); }
  }

  // ---------- Commit of the surrounding transaction ----------

  /** Credential rows and fences of all other bindings are as they were. */
  ghost predicate OthersKept(db: Db, db': Db, b: Binding) {
    forall c :: c != b ==>
      && (c in db.creds ==> c in db'.creds && db'.creds[c] == db.creds[c])
      && (forall x :: FenceOf(db', c, x) == FenceOf(db, c, x))
  }

  /** A commit that changes the credential row of b, possibly drops b's rows, and releases the lock. */
  lemma EffectSound(db: Db, t: ThreadId, b: Binding, db': Db)
    requires Global(db) && HasLock(db, t, b) && RowsExcused(db, b)
    requires db' == db.(creds := db'.creds, rows := db'.rows, fences := db'.fences, locks := db.locks - {b})
    requires OthersKept(db, db', b)
    requires db'.rows == DropBinding(db.rows, b) || (db'.rows == db.rows && b in db'.creds)
    ensures Global(db') && Guarantee(db, db', t)
  {
    forall k ensures KeyOk(db', k) && KeyStep(db, db', t, k) {
      assert KeyOk(db, k);
      if k in db.info { assert RowOk(db, db.info[k].slot); }
    }
    forall s ensures RowOk(db', s) && RowStep(db, db', t, s) { assert RowOk(db, s); }
    forall c ensures LockStep(db, db', t, c) { }
    forall i ensures IdOk(db', i) { assert IdOk(db, i); }
  }

  lemma AttentionSound(db: Db, t: ThreadId, b: Binding, db': Db)
    requires Global(db) && HasLock(db, t, b)
    requires db' == db.(creds := db'.creds, locks := db.locks - {b}) && db'.creds.Keys == db.creds.Keys
    requires OthersKept(db, db', b)
    ensures Global(db') && Guarantee(db, db', t)
  {
    forall k ensures KeyOk(db', k) && KeyStep(db, db', t, k) { assert KeyOk(db, k); }
    forall s ensures RowOk(db', s) && RowStep(db, db', t, s) { assert RowOk(db, s); }
    forall c ensures LockStep(db, db', t, c) { }
    forall i ensures IdOk(db', i) { assert IdOk(db, i); }
  }

  lemma FenceKeepsOthers(db: Db, b: Binding, e: Effect)
    requires b in db.creds && e.ApplyFence?
    ensures OthersKept(db, Unlock(ApplyEffect(db, b, e), b), b)
  {
  }

  lemma EffectKeepsOthers(db: Db, b: Binding, e: Effect)
    requires b in db.creds
    ensures OthersKept(db, Unlock(ApplyEffect(db, b, e), b), b)
  {
    if e.ApplyFence? { FenceKeepsOthers(db, b, e); } else {
      var db' := Unlock(ApplyEffect(db, b, e), b);
      forall c, x ensures FenceOf(db', c, x) == FenceOf(db, c, x) { assert db'.fences == db.fences; }
    }
  }

  lemma AttentionKeepsOthers(db: Db, b: Binding)
    requires b in db.creds
    ensures OthersKept(db, Unlock(db.(creds := db.creds[b := db.creds[b].(active := false)]), b), b)
  {
    var db' := Unlock(db.(creds := db.creds[b := db.creds[b].(active := false)]), b);
    forall c, x ensures FenceOf(db', c, x) == FenceOf(db, c, x) { }
  }

  lemma ConcludeControlSound(db: Db, t: ThreadId, th: Thread, e: Effect)
    requires Global(db) && Holds(db, t, th) && th.Concluding? && th.cause.held && th.result != Failure
    ensures var db' := Ended(ApplyEffect(db, th.cause.binding, e), th); Global(db') && Guarantee(db, db', t)
  {
    var b := th.cause.binding;
    EffectKeepsOthers(db, b, e);
    assert Ended(ApplyEffect(db, b, e), th) == Unlock(ApplyEffect(db, b, e), b);
    EffectSound(db, t, b, Unlock(ApplyEffect(db, b, e), b));
  }

  lemma ConcludeAttentionSound(db: Db, t: ThreadId, th: Thread, outcome: Outcome)
    requires Global(db) && Holds(db, t, th) && th.Concluding? && th.cause.purpose == Attention
    ensures Sound(db, t, ConcludeIn(db, th, outcome))
  {
    EndSound(db, t, th);
    var b := th.cause.binding;
    if th.cause.held && outcome != Failed {
      var db' := Unlock(db.(creds := db.creds[b := db.creds[b].(active := false)]), b);
      AttentionKeepsOthers(db, b);
      AttentionSound(db, t, b, db');
      assert ConcludeIn(db, th, outcome).db == db';
    }
  }

  lemma ConcludeEffectSound(db: Db, t: ThreadId, th: Thread, outcome: Outcome)
    requires Global(db) && Holds(db, t, th) && th.Concluding? && th.cause.purpose.Control?
    ensures Sound(db, t, ConcludeIn(db, th, outcome))
  {
    EndSound(db, t, th);
    if th.cause.held && outcome != Failed && th.result != Failure { ConcludeControlSound(db, t, th, th.cause.purpose.effect); }
  }

  lemma ConcludeReissueSound(db: Db, t: ThreadId, th: Thread, outcome: Outcome)
    requires Global(db) && Holds(db, t, th) && th.Concluding? && th.cause.purpose.Reissue?
    ensures Sound(db, t, ConcludeIn(db, th, outcome))
  {
    SameDb(db, t);
    EndSound(db, t, th);
  }

  lemma ConcludeSound(db: Db, t: ThreadId, th: Thread, outcome: Outcome)
    requires Global(db) && Holds(db, t, th) && th.Concluding?
    ensures Sound(db, t, ConcludeIn(db, th, outcome))
  {
    match th.cause.purpose
    case Attention => ConcludeAttentionSound(db, t, th, outcome);
    case Control(_) => ConcludeEffectSound(db, t, th, outcome);
    case Reissue(_, _) => ConcludeReissueSound(db, t, th, outcome);
    case Refuse => EndSound(db, t, th);
    case Standalone => EndSound(db, t, th);
  }

  lemma LoseTransactionSound(db: Db, t: ThreadId, th: Thread)
    requires Global(db) && Holds(db, t, th) && Invalidating(th) && th.cause.held
    ensures Sound(db, t, After(Ended(db, th), Some(Unheld(th))))
  {
    EndSound(db, t, th);
    var db' := Ended(db, th);
    match th
    case Listing(c) =>
    case Staging(c, _, jobs) => JobsStable(db, db', t, c.binding, jobs, 0);
    case Marking(c, jobs) => JobsStable(db, db', t, c.binding, jobs, 0);
    case Revoking(c, jobs, index, stage, _) =>
      JobsStable(db, db', t, c.binding, jobs, index);
      assert KeyOk(db, jobs[index].key);
      JobStable(db, db', t, jobs[index].(stage := stage));
    case Deleting(c, jobs) => JobsStable(db, db', t, c.binding, jobs, |jobs|);
    case Concluding(c, _) =>
  }

}
