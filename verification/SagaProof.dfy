/** Every step of every thread keeps the invariant and stays within its guarantee. */
module SagaProof {
  import opened SagaState
  import opened SagaSteps
  import opened SagaInvariant

  /** What has to be shown of one step: the tables, the other threads' facts, the actor's own facts. */
  ghost predicate Sound(db: Db, t: ThreadId, after: After) {
    && Global(after.db) && Guarantee(db, after.db, t)
    && (after.thread.Some? ==> Holds(after.db, t, after.thread.value))
  }

  lemma SameDb(db: Db, t: ThreadId)
    requires Global(db)
    ensures Guarantee(db, db, t)
  {
  }

  /** Releasing a lock, and remembering that a transaction is over, changes no table. */
  lemma UnlockSound(db: Db, t: ThreadId, b: Binding, closing: set<Key>)
    requires Global(db) && HasLock(db, t, b)
    requires forall k :: k in closing ==> k in db.info && db.info[k].owner == t
    ensures var db' := Unlock(db, b).(closed := db.closed + closing); Global(db') && Guarantee(db, db', t)
  {
    var db' := Unlock(db, b).(closed := db.closed + closing);
    forall k ensures KeyOk(db', k) && KeyStep(db, db', t, k) { assert KeyOk(db, k); }
    forall s ensures RowOk(db', s) && RowStep(db, db', t, s) { assert RowOk(db, s); }
    forall i ensures IdOk(db', i) { assert IdOk(db, i); }
  }

  lemma EndSound(db: Db, t: ThreadId, th: Thread)
    requires Global(db) && Holds(db, t, th)
    ensures Global(Ended(db, th)) && Guarantee(db, Ended(db, th), t)
  {
    match LockOf(th)
    case Some(b) => UnlockSound(db, t, b, {});
      assert Unlock(db, b).(closed := db.closed + {}) == Unlock(db, b);
    case None => SameDb(db, t);
  }

  // ---------- GetAuthKey ----------

  lemma CountIntentsSound(db: Db, t: ThreadId, th: Thread)
    requires Global(db) && Holds(db, t, th) && th.RowsCounted? && !HasIntent(db, th.slot.binding)
    ensures Sound(db, t, After(db, Some(Checked(th.slot, th.generation))))
  {
    SameDb(db, t);
    forall r | r in db.rows && r.binding == th.slot.binding ensures db.rows[r].key !in db.intents {
      assert RowOk(db, r);
    }
  }

  lemma ReadArtifactSound(db: Db, t: ThreadId, th: Thread)
    requires Global(db) && Holds(db, t, th) && th.Checked?
    ensures Sound(db, t, After(db, Some(ReadStored(db, th.slot, th.generation))))
  {
    SameDb(db, t);
    if th.slot in db.rows {
      assert RowOk(db, th.slot) && KeyOk(db, db.rows[th.slot].key);
    }
  }

  lemma UpstreamIssuesSound(db: Db, t: ThreadId, th: Thread, key: Key, expires: nat)
    requires Global(db) && Holds(db, t, th) && th.Issuing? && key !in db.info
    ensures Sound(db, t, After(IssueIn(db, t, th.slot, key, expires), Some(Issued(th.slot, th.generation, key))))
  {
    var db' := IssueIn(db, t, th.slot, key, expires);
    forall k ensures KeyOk(db', k) && KeyStep(db, db', t, k) { assert KeyOk(db, k); }
    forall s ensures RowOk(db', s) && RowStep(db, db', t, s) { assert RowOk(db, s); }
    forall i ensures IdOk(db', i) { assert IdOk(db, i); }
    assert KeyOk(db, key);
    assert RowOk(db, th.slot);
  }

  lemma StageIssuedSound(db: Db, t: ThreadId, th: Thread, id: IntentId, outcome: Outcome)
    requires Global(db) && Holds(db, t, th) && th.Issued? && id !in db.idOf
    ensures Sound(db, t, StageNext(db, th, id, outcome))
  {
    SameDb(db, t);
    if outcome != Failed {
      var db' := StageIn(db, th.key, id, Provisional);
      assert KeyOk(db, th.key);
      forall k ensures KeyOk(db', k) && KeyStep(db, db', t, k) { assert KeyOk(db, k); }
      forall s ensures RowOk(db', s) && RowStep(db, db', t, s) { assert RowOk(db, s); }
      forall i ensures IdOk(db', i) { assert IdOk(db, i); }
    }
  }

  lemma RevokeUntrackedSound(db: Db, t: ThreadId, th: Thread, outcome: Outcome)
    requires Global(db) && Holds(db, t, th) && th.Untracked?
    ensures Sound(db, t, After(UntrackedIn(db, th, outcome), None))
  {
    EndSound(db, t, th);
    var db' := UntrackedIn(db, th, outcome);
    forall k ensures KeyOk(db', k) && KeyStep(db, db', t, k) { assert KeyOk(db, k); }
    forall s ensures RowOk(db', s) && RowStep(db, db', t, s) { assert RowOk(db, s); }
    forall i ensures IdOk(db', i) { assert IdOk(db, i); }
  }

  lemma WriteRowSound(db: Db, t: ThreadId, th: Thread)
    requires Global(db) && Holds(db, t, th) && th.Staged? && !HasPendingRow(db.rows, th.slot.binding)
    ensures Sound(db, t, After(db, Some(Written(th.slot, th.key, th.id))))
  {
    SameDb(db, t);
  }

  lemma AbandonSound(db: Db, t: ThreadId, th: Thread)
    requires Global(db) && Holds(db, t, th) && (th.Staged? || th.Written?)
    ensures Sound(db, t, After(Ended(db, th).(closed := db.closed + {th.key}), Some(Compensating(Job(th.key, th.id, MarkStage)))))
  {
    UnlockSound(db, t, th.slot.binding, {th.key});
    assert KeyOk(db, th.key);
  }

  lemma RowCommittedSound(db: Db, t: ThreadId, s: Slot, key: Key)
    requires Global(db) && Issues(db, t, s, key) && key in db.staged
    requires s in db.rows ==> Expired(db, db.rows[s].key)
    ensures Global(RowCommittedIn(db, s, key)) && Guarantee(db, RowCommittedIn(db, s, key), t)
  {
    var db' := RowCommittedIn(db, s, key);
    assert KeyOk(db, key);
    forall k ensures KeyOk(db', k) && KeyStep(db, db', t, k) {
      assert KeyOk(db, k);
      if k in db.info { assert RowOk(db, db.info[k].slot); }
    }
    forall r ensures RowOk(db', r) && RowStep(db, db', t, r) { assert RowOk(db, r); }
    forall i ensures IdOk(db', i) { assert IdOk(db, i); }
  }

  lemma CommitWrittenSound(db: Db, t: ThreadId, th: Thread, outcome: Outcome)
    requires Global(db) && Holds(db, t, th) && th.Written?
    ensures Sound(db, t, CommitIn(db, th, outcome))
  {
    assert KeyOk(db, th.key);
    match outcome
    case Failed => UnlockSound(db, t, th.slot.binding, {th.key});
    case Done => RowCommittedSound(db, t, th.slot, th.key);
    case Lost => RowCommittedSound(db, t, th.slot, th.key);
  }

  /** An intent that went ready is dropped only after the acknowledgement. */
  lemma DropIntentSound(db: Db, t: ThreadId, key: Key, id: IntentId)
    requires Global(db) && id in db.idOf && db.idOf[id] == key
    requires IsReady(db, key) && db.intents[key].id == id ==> key in db.acked
    ensures var db' := IntentIn(db, id); Global(db') && Guarantee(db, db', t)
  {
    var db' := IntentIn(db, id);
    assert KeyOk(db, key);
    forall k ensures KeyOk(db', k) && KeyStep(db, db', t, k) { assert KeyOk(db, k); }
    forall s ensures RowOk(db', s) && RowStep(db, db', t, s) { assert RowOk(db, s); }
    forall i ensures IdOk(db', i) { assert IdOk(db, i); }
  }

  lemma ReturnGlobal(db: Db, key: Key)
    requires Global(db) && key in db.committed
    requires key in db.intents ==> key in db.invalidated
    ensures Global(Returned(db, key))
  {
    var db' := Returned(db, key);
    forall k ensures KeyOk(db', k) { assert KeyOk(db, k); }
    forall s ensures RowOk(db', s) { assert RowOk(db, s); }
    forall i ensures IdOk(db', i) { assert IdOk(db, i); }
  }

  lemma ReturnStep(db0: Db, db: Db, db': Db, t: ThreadId, k: Key)
    requires KeyStep(db0, db, t, k) && db' == db.(returned := db'.returned) && db.returned <= db'.returned
    ensures KeyStep(db0, db', t, k)
  {
  }

  lemma ReturnSound(db0: Db, db: Db, t: ThreadId, key: Key)
    requires Global(db) && Guarantee(db0, db, t) && key in db.committed
    requires key in db.intents ==> key in db.invalidated
    ensures Global(Returned(db, key)) && Guarantee(db0, Returned(db, key), t)
  {
    ReturnGlobal(db, key);
    if !Expired(db, key) {
      var db' := db.(returned := db.returned + {key});
      forall k ensures KeyStep(db0, db', t, k) { ReturnStep(db0, db, db', t, k); }
      forall s ensures RowStep(db0, db', t, s) { assert RowStep(db0, db, t, s); }
      forall i ensures IdStep(db0, db', i) { assert IdStep(db0, db, i); }
      forall b ensures LockStep(db0, db', t, b) { assert LockStep(db0, db, t, b); }
      forall x ensures TokenStep(db0, db', x) { assert TokenStep(db0, db, x); }
    }
  }

  lemma CommitReusingSound(db: Db, t: ThreadId, th: Thread, outcome: Outcome)
    requires Global(db) && Holds(db, t, th) && th.Reusing?
    ensures Sound(db, t, CommitIn(db, th, outcome))
  {
    EndSound(db, t, th);
    assert KeyOk(db, th.key);
    if outcome == Done { ReturnSound(db, Ended(db, th), t, th.key); }
  }

  /** The intent goes, and the key with it to the caller. */
  lemma FinalizedSound(db: Db, t: ThreadId, key: Key, id: IntentId)
    requires Global(db) && Holds(db, t, Finalizing(key, id)) && !FinalizeRefused(db.intents, id)
    ensures var dropped := IntentIn(db, id);
      && Global(dropped) && Guarantee(db, dropped, t)
      && Global(Returned(dropped, key)) && Guarantee(db, Returned(dropped, key), t)
  {
    assert KeyOk(db, key);
    DropIntentSound(db, t, key, id);
    ReturnSound(db, IntentIn(db, id), t, key);
  }

  lemma FinalizeSound(db: Db, t: ThreadId, th: Thread, outcome: Outcome)
    requires Global(db) && Holds(db, t, th) && th.Finalizing?
    ensures Sound(db, t, FinalizeIn(db, th.key, th.id, outcome))
  {
    SameDb(db, t);
    assert KeyOk(db, th.key);
    if outcome != Failed && !FinalizeRefused(db.intents, th.id) { FinalizedSound(db, t, th.key, th.id); }
  }

  // ---------- ConfirmDeliverable ----------

  lemma PassGateSound(db: Db, t: ThreadId, th: Thread)
    requires Global(db) && Holds(db, t, th) && th.Confirming? && Passes(db, th)
    ensures Sound(db, t, After(db, Some(th.(gate := NextGate(th.gate)))))
  {
    SameDb(db, t);
  }

  lemma CommitConfirmingSound(db: Db, t: ThreadId, th: Thread, outcome: Outcome)
    requires Global(db) && Holds(db, t, th) && th.Confirming?
    ensures Sound(db, t, CommitIn(db, th, outcome))
  {
    EndSound(db, t, th);
    if outcome == Done {
      var db' := Ended(db, th).(delivered := db.delivered + {th.delivery});
      forall k ensures KeyOk(db', k) && KeyStep(db, db', t, k) { assert KeyOk(Ended(db, th), k) && KeyStep(db, Ended(db, th), t, k); }
      forall s ensures RowOk(db', s) && RowStep(db, db', t, s) { assert RowOk(db, s); }
      forall i ensures IdOk(db', i) { assert IdOk(db, i); }
    }
  }

  // ---------- revokeIssuedArtifact ----------

  lemma MarkInSound(db: Db, t: ThreadId, j: Job)
    requires Global(db) && JobHolds(db, j) && j.stage == MarkStage
    requires (j.key in db.info && db.info[j.key].owner == t) || j.key in db.invalidated
    ensures var db' := MarkIn(db, j.key, j.id);
            Global(db') && Guarantee(db, db', t) && JobHolds(db', j.(stage := CallStage))
  {
    var db' := MarkIn(db, j.key, j.id);
    assert KeyOk(db, j.key);
    forall k ensures KeyOk(db', k) && KeyStep(db, db', t, k) { assert KeyOk(db, k); }
    forall s ensures RowOk(db', s) && RowStep(db, db', t, s) { assert RowOk(db, s); }
    forall i ensures IdOk(db', i) { assert IdOk(db, i); }
  }

  lemma CallInSound(db: Db, t: ThreadId, j: Job, outcome: Outcome, recovery: bool)
    requires Global(db) && JobHolds(db, j) && j.stage == CallStage
    requires recovery ==> Condemned(db, j.key)
    ensures var db' := CallIn(db, j.key, outcome, recovery);
            Global(db') && Guarantee(db, db', t) && (outcome == Done ==> JobHolds(db', j.(stage := RowStage)))
  {
    var db' := CallIn(db, j.key, outcome, recovery);
    assert KeyOk(db, j.key);
    forall k ensures KeyOk(db', k) && KeyStep(db, db', t, k) { assert KeyOk(db, k); }
    forall s ensures RowOk(db', s) && RowStep(db, db', t, s) { assert RowOk(db, s); }
    forall i ensures IdOk(db', i) { assert IdOk(db, i); }
  }

  lemma RowInSound(db: Db, t: ThreadId, j: Job)
    requires Global(db) && JobHolds(db, j) && j.stage == RowStage
    ensures var db' := RowIn(db, j.key);
            Global(db') && Guarantee(db, db', t) && JobHolds(db', j.(stage := IntentStage))
  {
    var db' := RowIn(db, j.key);
    assert KeyOk(db, j.key);
    assert RowOk(db, db.info[j.key].slot);
    forall k ensures KeyOk(db', k) && KeyStep(db, db', t, k) {
      assert KeyOk(db, k);
      if k in db.info { assert RowOk(db, db.info[k].slot); }
    }
    forall s ensures RowOk(db', s) && RowStep(db, db', t, s) { assert RowOk(db, s); }
    forall i ensures IdOk(db', i) { assert IdOk(db, i); }
  }

  /** One statement of revokeIssuedArtifact, whoever runs it. */
  lemma RevokeInSound(db: Db, t: ThreadId, j: Job, outcome: Outcome, recovery: bool)
    requires Global(db) && JobHolds(db, j)
    requires j.stage == MarkStage ==> (j.key in db.info && db.info[j.key].owner == t) || j.key in db.invalidated
    requires recovery ==> Condemned(db, j.key)
    ensures var db' := RevokeIn(db, j, outcome, recovery);
            && Global(db') && Guarantee(db, db', t)
            && (outcome == Done && j.stage != IntentStage ==> JobHolds(db', j.(stage := NextStage(j.stage))))
            && (j.stage == IntentStage ==> j.key in db'.acked)
  {
    SameDb(db, t);
    match j.stage
    case MarkStage => if outcome != Failed { MarkInSound(db, t, j); }
    case CallStage => CallInSound(db, t, j, outcome, recovery);
    case RowStage => if outcome != Failed { RowInSound(db, t, j); }
    case IntentStage => if outcome != Failed { DropIntentSound(db, t, j.key, j.id); }
  }

  lemma CompensateSound(db: Db, t: ThreadId, th: Thread, outcome: Outcome)
    requires Global(db) && Holds(db, t, th) && th.Compensating?
    ensures Sound(db, t, RevokeNext(db, th, outcome))
  {
    var revoked, db' := RevokeIn(db, th.job, outcome, false), CompensateIn(db, th.job, outcome);
    RevokeInSound(db, t, th.job, outcome, false);
    assert KeyStep(db, revoked, t, th.job.key);
    MarksSound(db, revoked, db', t);
  }

  /** Remembering what compensation did changes no table. */
  lemma MarksSound(db: Db, mid: Db, db': Db, t: ThreadId)
    requires Global(mid) && Guarantee(db, mid, t)
    requires db' == mid.(unmarked := db'.unmarked, compensated := db'.compensated)
    requires mid.unmarked <= db'.unmarked && mid.compensated <= db'.compensated
    ensures Global(db') && Guarantee(db, db', t)
  {
    forall k ensures KeyOk(db', k) && KeyStep(db, db', t, k) { assert KeyOk(mid, k) && KeyStep(db, mid, t, k); }
    forall s ensures RowOk(db', s) && RowStep(db, db', t, s) { assert RowOk(mid, s) && RowStep(db, mid, t, s); }
    forall i ensures IdOk(db', i) && IdStep(db, db', i) { assert IdOk(mid, i) && IdStep(db, mid, i); }
    forall b ensures LockStep(db, db', t, b) { assert LockStep(db, mid, t, b); }
    forall x ensures TokenStep(db, db', x) { assert TokenStep(db, mid, x); }
  }

}
