/** Every statement that takes no row of an exposed key keeps recovery fair. */
module SagaFairnessProof {
  import opened SagaState
  import opened SagaSteps
  import opened SagaInvariant
  import opened SagaProof
  import opened SagaTracking
  import opened SagaFairness

  // ---------- Statement by statement ----------

  ghost predicate EvenStep(db: Db, th: Thread, db': Db) {
    Even(db, th, db') && RowsEven(db, db')
  }

  lemma StageEven(db: Db, t: ThreadId, th: Thread, id: IntentId, outcome: Outcome)
    requires Global(db) && Holds(db, t, th) && Can(db, t, th, Stage(id, outcome))
    ensures EvenStep(db, th, StageNext(db, th, id, outcome).db)
  {
    var db' := StageNext(db, th, id, outcome).db;
    forall k ensures IntentEven(db, th, db', k) && UseEven(db, th, db', k) { assert KeyOk(db, k); }
    forall k ensures RowEven(db, db', k) { }
  }

  lemma RowCommitEven(db: Db, t: ThreadId, th: Thread)
    requires Global(db) && Holds(db, t, th) && th.Written?
    ensures EvenStep(db, th, RowCommittedIn(db, th.slot, th.key))
  {
    var db' := RowCommittedIn(db, th.slot, th.key);
    forall k ensures IntentEven(db, th, db', k) && UseEven(db, th, db', k) { }
    forall k ensures RowEven(db, db', k) { }
  }

  lemma SameTablesEven(db: Db, t: ThreadId, th: Thread, db': Db)
    requires Guarantee(db, db', t) && SameTables(db, db')
    ensures EvenStep(db, th, db')
  {
    AlikeIsEven(db, th, db');
    SameRowsEven(db, db', t);
  }

  lemma WrittenEven(db: Db, t: ThreadId, th: Thread, outcome: Outcome)
    requires Global(db) && Holds(db, t, th) && th.Written? && Guarantee(db, CommitIn(db, th, outcome).db, t)
    ensures EvenStep(db, th, CommitIn(db, th, outcome).db)
  {
    if outcome == Failed { SameTablesEven(db, t, th, CommitIn(db, th, outcome).db); } else { RowCommitEven(db, t, th); }
  }

  lemma ReturnedIntentEven(db: Db, th: Thread, mid: Db, db': Db, k: Key)
    requires IntentEven(db, th, mid, k) && db' == mid.(returned := db'.returned)
    ensures IntentEven(db, th, db', k)
  {
  }

  lemma ReturnedUseEven(db: Db, th: Thread, mid: Db, k: Key)
    requires UseEven(db, th, mid, k) && (th.Finalizing? || th.Reusing?)
    ensures UseEven(db, th, Returned(mid, th.key), k)
  {
  }

  lemma ReturnedRowEven(db: Db, mid: Db, key: Key, k: Key)
    requires RowEven(db, mid, k)
    ensures RowEven(db, Returned(mid, key), k)
  {
  }

  /** The key goes out: nothing changes but the set of returned keys. */
  lemma ReturnEven(db: Db, th: Thread, mid: Db)
    requires EvenStep(db, th, mid) && (th.Finalizing? || th.Reusing?)
    ensures EvenStep(db, th, Returned(mid, th.key))
  {
    var db' := Returned(mid, th.key);
    forall k ensures IntentEven(db, th, db', k) && UseEven(db, th, db', k) && RowEven(db, db', k) {
      ReturnedIntentEven(db, th, mid, db', k);
      ReturnedUseEven(db, th, mid, k);
      ReturnedRowEven(db, mid, th.key, k);
    }
  }

  lemma ReusingEven(db: Db, t: ThreadId, th: Thread, outcome: Outcome)
    requires Global(db) && Holds(db, t, th) && th.Reusing? && Guarantee(db, Ended(db, th), t)
    ensures EvenStep(db, th, CommitIn(db, th, outcome).db)
  {
    SameTablesEven(db, t, th, Ended(db, th));
    if outcome == Done { ReturnEven(db, th, Ended(db, th)); }
  }

  lemma ConfirmingEven(db: Db, t: ThreadId, th: Thread, outcome: Outcome)
    requires th.Confirming? && Guarantee(db, CommitIn(db, th, outcome).db, t)
    ensures EvenStep(db, th, CommitIn(db, th, outcome).db)
  {
    ConfirmingIsQuiet(db, th, outcome);
    SameTablesEven(db, t, th, CommitIn(db, th, outcome).db);
  }

  /** The rows an effect drops are excused: their intents are ready already. */
  lemma EffectRowsEven(db: Db, b: Binding, e: Effect)
    requires Global(db) && RowsExcused(db, b) && b in db.creds
    ensures RowsEven(db, Unlock(ApplyEffect(db, b, e), b))
  {
    forall k ensures RowEven(db, Unlock(ApplyEffect(db, b, e), b), k) { assert KeyOk(db, k); }
  }

  lemma EffectAlike(db: Db, b: Binding, e: Effect)
    requires b in db.creds
    ensures Alike(db, Unlock(ApplyEffect(db, b, e), b))
  {
  }

  lemma ConcludingEven(db: Db, t: ThreadId, th: Thread, outcome: Outcome)
    requires Global(db) && Holds(db, t, th) && th.Concluding? && Guarantee(db, CommitIn(db, th, outcome).db, t)
    ensures EvenStep(db, th, CommitIn(db, th, outcome).db)
  {
    if th.cause.purpose.Control? && th.cause.held && outcome != Failed && th.result != Failure {
      var b, e := th.cause.binding, th.cause.purpose.effect;
      EffectAlike(db, b, e);
      AlikeIsEven(db, th, Unlock(ApplyEffect(db, b, e), b));
      EffectRowsEven(db, b, e);
    } else {
      ConcludesQuietly(db, th, outcome);
      SameTablesEven(db, t, th, ConcludeIn(db, th, outcome).db);
    }
  }

  lemma CommitKeyEven(db: Db, t: ThreadId, th: Thread, outcome: Outcome)
    requires Global(db) && Holds(db, t, th) && (th.Written? || th.Reusing?) && Guarantee(db, CommitIn(db, th, outcome).db, t)
    ensures EvenStep(db, th, CommitIn(db, th, outcome).db)
  {
    if th.Written? { WrittenEven(db, t, th, outcome); } else {
      EndSound(db, t, th);
      ReusingEven(db, t, th, outcome);
    }
  }

  lemma CommitEven(db: Db, t: ThreadId, th: Thread, outcome: Outcome)
    requires Global(db) && Holds(db, t, th) && Can(db, t, th, Commit(outcome)) && Guarantee(db, CommitIn(db, th, outcome).db, t)
    ensures EvenStep(db, th, CommitIn(db, th, outcome).db)
  {
    if th.Written? || th.Reusing? { CommitKeyEven(db, t, th, outcome); }
    else if th.Concluding? { ConcludingEven(db, t, th, outcome); }
    else { ConfirmingEven(db, t, th, outcome); }
  }

  /** Finalizing and revoking drop an intent that is provisional, or ready and without a row. */
  lemma DropEven(db: Db, t: ThreadId, th: Thread, key: Key, id: IntentId)
    requires Global(db) && id in db.idOf && db.idOf[id] == key && Guarantee(db, IntentIn(db, id), t)
    requires IsReady(db, key) && db.intents[key].id == id ==> !InRow(db, key)
    ensures EvenStep(db, th, IntentIn(db, id))
  {
    var db' := IntentIn(db, id);
    forall k ensures IntentEven(db, th, db', k) && UseEven(db, th, db', k) { assert KeyOk(db, k); }
    SameRowsEven(db, db', t);
  }

  lemma FinalizeEven(db: Db, t: ThreadId, th: Thread, outcome: Outcome)
    requires Global(db) && Holds(db, t, th) && th.Finalizing?
    ensures EvenStep(db, th, FinalizeIn(db, th.key, th.id, outcome).db)
  {
    SameDb(db, t);
    if outcome == Failed || FinalizeRefused(db.intents, th.id) { SameTablesEven(db, t, th, db); } else {
      DropIntentSound(db, t, th.key, th.id);
      DropEven(db, t, th, th.key, th.id);
      if outcome == Done { ReturnEven(db, th, IntentIn(db, th.id)); }
    }
  }

  lemma MarkEven(db: Db, t: ThreadId, th: Thread, j: Job)
    requires Global(db) && JobHolds(db, j) && j.stage == MarkStage && Guarantee(db, MarkIn(db, j.key, j.id), t)
    requires (th.Compensating? && th.job.key == j.key) || j.key in db.invalidated
    ensures EvenStep(db, th, MarkIn(db, j.key, j.id))
  {
    var db' := MarkIn(db, j.key, j.id);
    forall k ensures IntentEven(db, th, db', k) && UseEven(db, th, db', k) { assert KeyOk(db, k); }
    SameRowsEven(db, db', t);
  }

  lemma CallEven(db: Db, t: ThreadId, th: Thread, key: Key, outcome: Outcome, recovery: bool)
    requires recovery ==> Condemned(db, key)
    requires Guarantee(db, CallIn(db, key, outcome, recovery), t)
    ensures EvenStep(db, th, CallIn(db, key, outcome, recovery))
  {
    var db' := CallIn(db, key, outcome, recovery);
    forall k ensures IntentEven(db, th, db', k) && UseEven(db, th, db', k) { }
    SameRowsEven(db, db', t);
  }

  lemma RowEvenAfterRevoke(db: Db, th: Thread, j: Job)
    requires Global(db) && JobHolds(db, j) && j.stage == RowStage
    ensures EvenStep(db, th, RowIn(db, j.key))
  {
    var db' := RowIn(db, j.key);
    AlikeIsEven(db, th, db');
    forall k ensures RowEven(db, db', k) { }
  }

  lemma RevokeEven(db: Db, t: ThreadId, th: Thread, j: Job, outcome: Outcome, recovery: bool)
    requires Global(db) && JobHolds(db, j) && Guarantee(db, RevokeIn(db, j, outcome, recovery), t)
    requires j.stage == MarkStage ==> (th.Compensating? && th.job.key == j.key) || j.key in db.invalidated
    requires recovery ==> Condemned(db, j.key)
    ensures EvenStep(db, th, RevokeIn(db, j, outcome, recovery))
  {
    if outcome == Failed && j.stage != CallStage { SameTablesEven(db, t, th, db); } else {
      match j.stage
      case MarkStage => MarkEven(db, t, th, j);
      case CallStage => CallEven(db, t, th, j.key, outcome, recovery);
      case RowStage => RowEvenAfterRevoke(db, th, j);
      case IntentStage => DropEven(db, t, th, j.key, j.id);
    }
  }

  lemma MarksEven(db: Db, th: Thread, mid: Db, db': Db)
    requires EvenStep(db, th, mid) && db' == mid.(unmarked := db'.unmarked, compensated := db'.compensated)
    ensures EvenStep(db, th, db')
  {
    forall k ensures IntentEven(db, th, db', k) && UseEven(db, th, db', k) {
      MarkedIntentEven(db, th, mid, db', k);
      assert UseEven(db, th, mid, k);
    }
    forall k ensures RowEven(db, db', k) { assert RowEven(db, mid, k); }
  }

  lemma MarkedIntentEven(db: Db, th: Thread, mid: Db, db': Db, k: Key)
    requires Even(db, th, mid) && db' == mid.(unmarked := db'.unmarked, compensated := db'.compensated)
    ensures IntentEven(db, th, db', k)
  {
    assert IntentEven(db, th, mid, k);
  }

  lemma CompensateEven(db: Db, t: ThreadId, th: Thread, outcome: Outcome)
    requires Global(db) && Holds(db, t, th) && th.Compensating?
    ensures EvenStep(db, th, CompensateIn(db, th.job, outcome))
  {
    RevokeInSound(db, t, th.job, outcome, false);
    RevokeEven(db, t, th, th.job, outcome, false);
    MarksEven(db, th, RevokeIn(db, th.job, outcome, false), CompensateIn(db, th.job, outcome));
  }

  lemma RevokeMoveEven(db: Db, t: ThreadId, th: Thread, outcome: Outcome)
    requires Global(db) && Holds(db, t, th) && Can(db, t, th, Revoke(outcome))
    requires Guarantee(db, RevokeNext(db, th, outcome).db, t)
    ensures EvenStep(db, th, RevokeNext(db, th, outcome).db)
  {
    match th
    case Compensating(_) => CompensateEven(db, t, th, outcome);
    case RecoveringOne(_, _, job) => RevokeEven(db, t, th, job, outcome, true);
    case Revoking(_, jobs, index, stage, _) => RevokeEven(db, t, th, jobs[index].(stage := stage), outcome, false);
  }

  /** The worker drops the intent of a key whose row is visible. */
  lemma KeepEven(db: Db, t: ThreadId, th: Thread, key: Key)
    requires Global(db) && IsProvisional(db, key) && Guarantee(db, db.(intents := db.intents - {key}), t)
    ensures EvenStep(db, th, db.(intents := db.intents - {key}))
  {
    var db' := db.(intents := db.intents - {key});
    forall k ensures IntentEven(db, th, db', k) && UseEven(db, th, db', k) { }
    SameRowsEven(db, db', t);
  }

  lemma CondemnEven(db: Db, t: ThreadId, th: Thread, key: Key)
    requires Global(db) && IsProvisional(db, key) && Resolving(db, th, key) && Guarantee(db, CondemnIn(db, key), t)
    ensures EvenStep(db, th, CondemnIn(db, key))
  {
    var db' := CondemnIn(db, key);
    forall k ensures IntentEven(db, th, db', k) && UseEven(db, th, db', k) { }
    SameRowsEven(db, db', t);
  }

  lemma ResolveEven(db: Db, t: ThreadId, th: Thread, outcome: Outcome)
    requires Global(db) && Holds(db, t, th) && Can(db, t, th, Resolve(outcome))
    requires Guarantee(db, ResolveIn(db, th, outcome).db, t)
    ensures EvenStep(db, th, ResolveIn(db, th, outcome).db)
  {
    var claimed := th.queue[0];
    assert ClaimHolds(db, th.token, claimed);
    if outcome == Failed || !Leased(db.intents, claimed.key, claimed.id, th.token) { SameTablesEven(db, t, th, db); }
    else if KeptByRow(db, claimed.key) { KeepEven(db, t, th, claimed.key); }
    else { CondemnEven(db, t, th, claimed.key); }
  }

  lemma ReleaseEven(db: Db, t: ThreadId, th: Thread, outcome: Outcome)
    requires Global(db) && Holds(db, t, th) && th.Releasing? && Guarantee(db, ReleasedIn(db, th.id, th.token, outcome), t)
    ensures EvenStep(db, th, ReleasedIn(db, th.id, th.token, outcome))
  {
    var db' := ReleasedIn(db, th.id, th.token, outcome);
    forall k ensures IntentEven(db, th, db', k) && UseEven(db, th, db', k) { }
    SameRowsEven(db, db', t);
  }

  lemma MarkedEven(db: Db, th: Thread, b: Binding)
    ensures Even(db, th, db.(rows := RowsPending(db.rows, b)))
  {
    AlikeIsEven(db, th, db.(rows := RowsPending(db.rows, b)));
  }

  lemma DroppedEven(db: Db, th: Thread, b: Binding)
    ensures Even(db, th, db.(rows := DropBinding(db.rows, b)))
  {
    AlikeIsEven(db, th, db.(rows := DropBinding(db.rows, b)));
  }

  lemma TakesRowsEven(db: Db, t: ThreadId, th: Thread, m: Move)
    requires Can(db, t, th, m) && (m.MarkRows? || m.DeleteRows?)
    ensures Even(db, th, MoveIn(db, t, th, m).db)
  {
    AlikeIsEven(db, th, db);
    match m
    case MarkRows(_) => MarkedEven(db, th, th.cause.binding);
    case DeleteRows(_) => DroppedEven(db, th, th.cause.binding);
  }

  /** The key is staged before its row was ever committed. */
  lemma StageAloneEven(db: Db, t: ThreadId, th: Thread, id: IntentId, outcome: Outcome)
    requires Global(db) && Holds(db, t, th) && th.IssuedAlone? && Guarantee(db, StageAloneIn(db, th.key, id, outcome).db, t)
    ensures EvenStep(db, th, StageAloneIn(db, th.key, id, outcome).db)
  {
    var db' := StageAloneIn(db, th.key, id, outcome).db;
    assert KeyOk(db, th.key);
    forall k ensures IntentEven(db, th, db', k) && UseEven(db, th, db', k) { }
    SameRowsEven(db, db', t);
  }

  lemma QuietMoveEven(db: Db, t: ThreadId, th: Thread, m: Move)
    requires Can(db, t, th, m) && !Writes(m) && !m.DeleteRows? && Guarantee(db, MoveIn(db, t, th, m).db, t)
    ensures EvenStep(db, th, MoveIn(db, t, th, m).db)
  {
    RestIsQuiet(db, t, th, m);
    SameTablesEven(db, t, th, MoveIn(db, t, th, m).db);
  }

  /** What every statement but the two that take rows does. */
  ghost predicate MovedEvenly(db: Db, th: Thread, m: Move, db': Db) {
    Even(db, th, db') && (m.MarkRows? || m.DeleteRows? || RowsEven(db, db'))
  }

  lemma IntentMoveEven(db: Db, t: ThreadId, th: Thread, m: Move)
    requires Global(db) && Holds(db, t, th) && Can(db, t, th, m) && Guarantee(db, MoveIn(db, t, th, m).db, t)
    requires m.Finalize? || m.StageAlone?
    ensures EvenStep(db, th, MoveIn(db, t, th, m).db)
  {
    if m.Finalize? { FinalizeEven(db, t, th, m.outcome); } else { StageAloneEven(db, t, th, m.id, m.outcome); }
  }

  lemma WorkerMoveEven(db: Db, t: ThreadId, th: Thread, m: Move)
    requires Global(db) && Holds(db, t, th) && Can(db, t, th, m) && Guarantee(db, MoveIn(db, t, th, m).db, t)
    requires m.Resolve? || m.Release?
    ensures EvenStep(db, th, MoveIn(db, t, th, m).db)
  {
    if m.Resolve? { ResolveEven(db, t, th, m.outcome); } else { ReleaseEven(db, t, th, m.outcome); }
  }

  lemma LockedMoveEven(db: Db, t: ThreadId, th: Thread, m: Move)
    requires Global(db) && Holds(db, t, th) && Can(db, t, th, m) && Guarantee(db, MoveIn(db, t, th, m).db, t)
    requires m.Stage? || m.Commit? || m.ReadArtifact?
    ensures EvenStep(db, th, MoveIn(db, t, th, m).db)
  {
    if m.Commit? { CommitEven(db, t, th, m.outcome); }
    else if m.Stage? { StageEven(db, t, th, m.id, m.outcome); }
    else { SameTablesEven(db, t, th, db); }
  }

  lemma MoveEven(db: Db, t: ThreadId, th: Thread, m: Move)
    requires Global(db) && Holds(db, t, th) && Can(db, t, th, m) && Guarantee(db, MoveIn(db, t, th, m).db, t)
    ensures MovedEvenly(db, th, m, MoveIn(db, t, th, m).db)
  {
    if m.MarkRows? || m.DeleteRows? { TakesRowsEven(db, t, th, m); }
    else if m.Finalize? || m.StageAlone? { IntentMoveEven(db, t, th, m); }
    else if m.Resolve? || m.Release? { WorkerMoveEven(db, t, th, m); }
    else if m.Revoke? { RevokeMoveEven(db, t, th, m.outcome); }
    else if m.Stage? || m.Commit? || m.ReadArtifact? { LockedMoveEven(db, t, th, m); }
    else { QuietMoveEven(db, t, th, m); }
  }

  // ---------- Threads ----------

  /** Only a commit leads to the finalization of a key, and only a read to its reuse. */
  lemma CommitHandsOut(db: Db, th: Thread, outcome: Outcome)
    requires (th.Written? || th.Reusing? || th.Concluding? || th.Confirming?) && CommitIn(db, th, outcome).thread.Some?
    ensures var next := CommitIn(db, th, outcome).thread.value;
      !next.Reusing? && (next.Finalizing? ==> th.Written? && next.key == th.key)
  {
  }

  lemma RowWritesHandOutNothing(db: Db, t: ThreadId, th: Thread, m: Move)
    requires Can(db, t, th, m) && MoveIn(db, t, th, m).thread.Some? && (m.Stage? || m.MarkRows? || m.DeleteRows?)
    ensures var next := MoveIn(db, t, th, m).thread.value; !next.Finalizing? && !next.Reusing?
  {
  }

  lemma IntentWritesHandOutNothing(db: Db, t: ThreadId, th: Thread, m: Move)
    requires Can(db, t, th, m) && MoveIn(db, t, th, m).thread.Some?
    requires m.StageAlone? || m.Finalize? || m.Revoke? || m.Resolve? || m.Release?
    ensures var next := MoveIn(db, t, th, m).thread.value; !next.Finalizing? && !next.Reusing?
  {
  }

  lemma WhoHandsOut(db: Db, t: ThreadId, th: Thread, m: Move)
    requires Can(db, t, th, m) && MoveIn(db, t, th, m).thread.Some?
    ensures var next := MoveIn(db, t, th, m).thread.value;
      && (next.Finalizing? ==> th.Written? && m.Commit? && next.key == th.key)
      && (next.Reusing? ==> th.Checked? && next == ReadStored(db, th.slot, th.generation))
  {
    if m.Commit? { CommitHandsOut(db, th, m.outcome); }
    else if m.Stage? || m.MarkRows? || m.DeleteRows? { RowWritesHandOutNothing(db, t, th, m); }
    else if m.StageAlone? || m.Finalize? || m.Revoke? || m.Resolve? || m.Release? { IntentWritesHandOutNothing(db, t, th, m); }
    else if !m.ReadArtifact? { RestIsQuiet(db, t, th, m); }
  }

  /** A thread comes to hand out a key by committing its row, or by reading it under the row lock. */
  lemma NextHandsOut(db: Db, t: ThreadId, th: Thread, m: Move, k: Key)
    requires Global(db) && Holds(db, t, th) && Can(db, t, th, m)
    requires MoveIn(db, t, th, m).thread.Some? && HandsOut(MoveIn(db, t, th, m).thread.value, k)
    ensures if MoveIn(db, t, th, m).thread.value.Finalizing? then k !in db.closed
            else InRow(db, k) && (k in db.intents ==> k in db.invalidated)
  {
    WhoHandsOut(db, t, th, m);
    if th.Checked? { assert RowOk(db, th.slot); }
  }

  /** A worker goes through its claims in order, and gives back the one it failed on. */
  ghost predicate WorkerGoesOn(th: Thread, next: Thread)
    requires Worker(th) && Worker(next)
  {
    && next.token == th.token
    && (next.queue == th.queue || (th.Recovering? && |th.queue| > 0 && next.queue == th.queue[1..]))
    && (next.Releasing? ==>
          || (th.Recovering? && |th.queue| > 0 && next.id == th.queue[0].id)
          || (th.RecoveringOne? && next.id == th.job.id))
  }

  lemma WorkerRevokes(db: Db, th: Thread, outcome: Outcome)
    requires th.Compensating? || th.RecoveringOne? || (th.Revoking? && th.index < |th.jobs|)
    ensures var next := RevokeNext(db, th, outcome).thread;
      next.Some? && Worker(next.value) ==> Worker(th) && WorkerGoesOn(th, next.value)
  {
  }

  lemma WorkerResolves(db: Db, th: Thread, outcome: Outcome)
    requires th.Recovering? && |th.queue| > 0
    ensures var next := ResolveIn(db, th, outcome).thread; next.Some? && Worker(next.value) && WorkerGoesOn(th, next.value)
  {
  }

  lemma CommitsDoNotWork(db: Db, th: Thread, outcome: Outcome)
    requires th.Written? || th.Reusing? || th.Concluding? || th.Confirming?
    ensures CommitIn(db, th, outcome).thread.Some? ==> !Worker(CommitIn(db, th, outcome).thread.value)
  {
  }

  lemma LonersDoNotWork(db: Db, t: ThreadId, th: Thread, m: Move)
    requires Alone(m) && Can(db, t, th, m)
    ensures AloneIn(db, t, th, m).thread.Some? ==> !Worker(AloneIn(db, t, th, m).thread.value)
  {
  }

  lemma LookersDoNotWork(db: Db, t: ThreadId, th: Thread, m: Move)
    requires Can(db, t, th, m) && Looks(m) && !m.TakeReady?
    ensures MoveIn(db, t, th, m).thread.Some? ==> !Worker(MoveIn(db, t, th, m).thread.value)
  {
  }

  lemma OnlyWorkersWork(db: Db, t: ThreadId, th: Thread, m: Move)
    requires Can(db, t, th, m) && !m.Revoke? && !m.Resolve? && !m.TakeReady? && !m.Release?
    ensures MoveIn(db, t, th, m).thread.Some? ==> !Worker(MoveIn(db, t, th, m).thread.value)
  {
    if Looks(m) { LookersDoNotWork(db, t, th, m); }
    else if m.Commit? { CommitsDoNotWork(db, th, m.outcome); }
    else if Alone(m) { LonersDoNotWork(db, t, th, m); }
  }

  lemma WorkerNext(db: Db, t: ThreadId, th: Thread, m: Move)
    requires Can(db, t, th, m) && MoveIn(db, t, th, m).thread.Some? && Worker(MoveIn(db, t, th, m).thread.value)
    ensures Worker(th) && WorkerGoesOn(th, MoveIn(db, t, th, m).thread.value)
  {
    if m.Revoke? { WorkerRevokes(db, th, m.outcome); }
    else if m.Resolve? { WorkerResolves(db, th, m.outcome); }
    else if !m.TakeReady? && !m.Release? { OnlyWorkersWork(db, t, th, m); }
  }

  lemma QueuedBefore(db: Db, db': Db, th: Thread, next: Thread, k: Key)
    requires Worker(th) && Worker(next) && WorkerGoesOn(th, next) && k in db.intents
    requires k in db'.intents && SameIntent(db, db', th, k) && Queued(db', next, k)
    ensures Queued(db, th, k)
  {
    var i :| 0 <= i < |next.queue| && next.queue[i].key == k && Leased(db'.intents, k, next.queue[i].id, next.token);
    if next.queue == th.queue {
      assert th.queue[i] == next.queue[i];
    } else {
      assert th.queue[i + 1] == next.queue[i];
    }
  }

  lemma GivesBackBefore(db: Db, t: ThreadId, db': Db, th: Thread, next: Thread, k: Key)
    requires Global(db) && Holds(db, t, th) && Worker(th) && Worker(next) && WorkerGoesOn(th, next)
    requires IsProvisional(db, k) && k in db'.intents && SameIntent(db, db', th, k) && GivesBack(db', next, k)
    ensures Queued(db, th, k)
  {
    assert KeyOk(db, k);
    if th.Recovering? {
      assert ClaimHolds(db, th.token, th.queue[0]);
      assert th.queue[0].key == k;
    }
  }

  /** What a worker can claim after a move it could claim before. */
  lemma NextClaims(db: Db, t: ThreadId, db': Db, th: Thread, next: Thread, k: Key)
    requires Global(db) && Holds(db, t, th) && (Worker(next) ==> Worker(th) && WorkerGoesOn(th, next))
    requires IsProvisional(db, k) && k in db'.intents && SameIntent(db, db', th, k) && Claims(db', next, k)
    ensures Claims(db, th, k)
  {
    if Queued(db', next, k) { QueuedBefore(db, db', th, next, k); } else { GivesBackBefore(db, t, db', th, next, k); }
  }

}
