/**
 An issuer whose transaction is rolled back under it keeps the saga's invariant: it has lost its row lock, but
 nobody else stages or commits its key.
 */
module SagaAloneProof {
  import opened SagaState
  import opened SagaSteps
  import opened SagaInvariant
  import opened SagaProof

  lemma CutOffSound(db: Db, t: ThreadId, th: Thread)
    requires Global(db) && Holds(db, t, th) && (th.Issuing? || th.Issued? || th.Untracked?)
    ensures Sound(db, t, After(Ended(db, th), Some(LeftAlone(th))))
  {
    EndSound(db, t, th);
    if th.Untracked? { assert KeyOk(db, th.key); }
  }

  lemma IssueAloneSound(db: Db, t: ThreadId, s: Slot, key: Key, expires: nat)
    requires Global(db) && key !in db.info
    ensures Sound(db, t, After(IssueIn(db, t, s, key, expires), Some(IssuedAlone(s, key))))
  {
    var db' := IssueIn(db, t, s, key, expires);
    assert KeyOk(db, key);
    forall k ensures KeyOk(db', k) && KeyStep(db, db', t, k) { assert KeyOk(db, k); }
    forall r ensures RowOk(db', r) && RowStep(db, db', t, r) { assert RowOk(db, r); }
    forall i ensures IdOk(db', i) { assert IdOk(db, i); }
  }

  /** The intent is stored as any other; `closing` says that the issuer goes on to its compensation. */
  lemma LateIntentSound(db: Db, t: ThreadId, s: Slot, key: Key, id: IntentId, closing: set<Key>)
    requires Global(db) && Holds(db, t, IssuedAlone(s, key)) && id !in db.idOf && closing <= {key}
    ensures var db' := StageIn(db, key, id, Provisional).(closed := db.closed + closing); Global(db') && Guarantee(db, db', t)
  {
    var db' := StageIn(db, key, id, Provisional).(closed := db.closed + closing);
    assert KeyOk(db, key);
    forall k ensures KeyOk(db', k) && KeyStep(db, db', t, k) { assert KeyOk(db, k); }
    forall r ensures RowOk(db', r) && RowStep(db, db', t, r) { assert RowOk(db, r); }
    forall i ensures IdOk(db', i) { assert IdOk(db, i); }
  }

  lemma CompensatesLate(db: Db, t: ThreadId, s: Slot, key: Key, id: IntentId)
    requires Global(db) && Holds(db, t, IssuedAlone(s, key)) && id !in db.idOf
    ensures Sound(db, t, StageAloneIn(db, key, id, Done))
  {
    assert KeyOk(db, key);
    LateIntentSound(db, t, s, key, id, {key});
  }

  lemma GivesUpLate(db: Db, t: ThreadId, s: Slot, key: Key, id: IntentId)
    requires Global(db) && Holds(db, t, IssuedAlone(s, key)) && id !in db.idOf
    ensures Sound(db, t, StageAloneIn(db, key, id, Lost)) && Sound(db, t, StageAloneIn(db, key, id, Failed))
  {
    SameDb(db, t);
    assert KeyOk(db, key);
    LateIntentSound(db, t, s, key, id, {});
    assert StageIn(db, key, id, Provisional).(closed := db.closed + {}) == StageIn(db, key, id, Provisional);
  }

  lemma StageAloneSound(db: Db, t: ThreadId, th: Thread, id: IntentId, outcome: Outcome)
    requires Global(db) && Holds(db, t, th) && th.IssuedAlone? && id !in db.idOf
    ensures Sound(db, t, StageAloneIn(db, th.key, id, outcome))
  {
    if outcome == Done { CompensatesLate(db, t, th.slot, th.key, id); } else { GivesUpLate(db, t, th.slot, th.key, id); }
  }

  lemma RevokeAloneSound(db: Db, t: ThreadId, acked: set<Key>)
    requires Global(db)
    ensures var db' := db.(acked := db.acked + acked); Global(db') && Guarantee(db, db', t)
  {
    var db' := db.(acked := db.acked + acked);
    forall k ensures KeyOk(db', k) && KeyStep(db, db', t, k) { assert KeyOk(db, k); }
    forall r ensures RowOk(db', r) && RowStep(db, db', t, r) { assert RowOk(db, r); }
    forall i ensures IdOk(db', i) { assert IdOk(db, i); }
  }

  lemma AloneSound(db: Db, t: ThreadId, th: Thread, m: Move)
    requires Global(db) && Holds(db, t, th) && Can(db, t, th, m) && Alone(m)
    ensures Sound(db, t, MoveIn(db, t, th, m))
  {
    match m
    case CutOff => CutOffSound(db, t, th);
    case IssueAlone(key, expires) => IssueAloneSound(db, t, th.slot, key, expires);
    case StageAlone(id, outcome) => StageAloneSound(db, t, th, id, outcome);
    case RevokeAlone(outcome) => if outcome == Done { RevokeAloneSound(db, t, {th.key}); } else { SameDb(db, t); }
  }

}
