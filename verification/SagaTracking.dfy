/**
 No key is lost: a staged key stays reachable through its intent or its artifact row until it is dead.
 Exactly one statement can break that, the delete that ends an invalidation, and `Careful` says when.
 */
module SagaTracking {
  import opened SagaState
  import opened SagaSteps
  import opened SagaInvariant
  import opened SagaTheorems

  // ---------- What is to be kept ----------

  /** A staged key is dead, or an intent or an artifact row still leads to it. */
  ghost predicate Tracked(db: Db, k: Key) {
    k in db.acked || Expired(db, k) || k in db.intents || InRow(db, k)
  }

  ghost predicate NoOrphan(db: Db) {
    forall k :: k in db.staged ==> Tracked(db, k)
  }

  /** The thread is about to hand the key out. */
  predicate HandsOut(th: Thread, k: Key) {
    (th.Finalizing? || th.Reusing?) && th.key == k
  }

  /**
   The inductive form. An intent that is still provisional tracks its key only while nobody is about
   to drop it, so a key that was or may be handed out needs more than that.
   */
  ghost predicate KeyTracked(w: World, k: Key) {
    && (k in w.db.staged ==> Safe(w.db, k) || k in w.db.intents)
    && (k in w.db.returned ==> Safe(w.db, k))
    && (forall u :: u in w.threads && HandsOut(w.threads[u], k) ==> Safe(w.db, k))
  }

  ghost predicate AllTracked(w: World) {
    forall k :: KeyTracked(w, k)
  }

  // ---------- Which deletes are careful ----------

  ghost predicate BeingFinalized(w: World, k: Key) {
    exists u :: u in w.threads && w.threads[u].Finalizing? && w.threads[u].key == k
  }

  /** Dropping the row of the key leaves it dead, under a ready intent, or under an intent nobody is about to drop. */
  ghost predicate MayLoseRow(w: World, k: Key) {
    || Expired(w.db, k) || k in w.db.acked || IsReady(w.db, k)
    || (k in w.db.intents && !BeingFinalized(w, k))
  }

  /** The action is not the delete of an invalidation, or that delete meets only rows it may drop. */
  ghost predicate Careful(w: World, a: Action) {
    a.Act? && a.move.DeleteRows? && a.move.outcome != Failed && a.t in w.threads && w.threads[a.t].Deleting? ==>
      forall s :: s in w.db.rows && s.binding == w.threads[a.t].cause.binding ==> MayLoseRow(w, w.db.rows[s].key)
  }

  ghost predicate AllCareful(w: World, actions: seq<Action>)
    decreases |actions|
  {
    |actions| > 0 ==> Careful(w, actions[0]) && AllCareful(Apply(w, actions[0]), actions[1..])
  }

  // ---------- What every other step keeps ----------

  /** The row is still there with its key, or the key no longer needs it. */
  ghost predicate RowKept(db: Db, db': Db, s: Slot) {
    s in db.rows ==>
      || (s in db'.rows && db'.rows[s].key == db.rows[s].key)
      || db.rows[s].key in db'.acked || Expired(db', db.rows[s].key) || IsReady(db', db.rows[s].key)
  }

  /** Intents vanish, and keys are returned, only when the key is safe; new keys come with an intent. */
  ghost predicate IntentKept(db: Db, db': Db, k: Key) {
    && (k in db.intents && k !in db'.intents ==> Safe(db', k))
    && (k in db'.returned && k !in db.returned ==> Safe(db', k))
    && (k in db'.staged && k !in db.staged ==> k in db'.intents)
  }

  ghost predicate Keeping(db: Db, db': Db) {
    (forall s :: RowKept(db, db', s)) && (forall k :: IntentKept(db, db', k))
  }

  /** A statement keeps the keys, and lets its thread hand out only a safe one. */
  ghost predicate Moved(db: Db, after: After) {
    && Keeping(db, after.db)
    && (after.thread.Some? ==> forall k :: HandsOut(after.thread.value, k) ==> Safe(after.db, k))
  }

  ghost predicate Quiet(db: Db, db': Db) {
    db'.rows == db.rows && db'.intents.Keys == db.intents.Keys && db'.returned == db.returned && db'.staged == db.staged
  }

  lemma QuietKeeps(db: Db, db': Db)
    requires Quiet(db, db')
    ensures Keeping(db, db')
  {
  }

  lemma SafeStays(db: Db, db': Db, t: ThreadId, k: Key)
    requires Guarantee(db, db', t) && Keeping(db, db') && Safe(db, k)
    ensures Safe(db', k)
  {
    assert KeyStep(db, db', t, k);
    if InRow(db, k) { assert RowKept(db, db', db.info[k].slot); }
  }

  // ---------- Step by step ----------

  /** Under the invariant an excused row may go. */
  lemma ExcusedMayGo(db: Db, k: Key)
    requires Global(db) && Excused(db, k)
    ensures k in db.acked || Expired(db, k) || IsReady(db, k)
  {
    assert KeyOk(db, k);
  }

  lemma CommitRowKeeps(db: Db, t: ThreadId, th: Thread, outcome: Outcome)
    requires Global(db) && Holds(db, t, th) && th.Written?
    ensures Moved(db, CommitIn(db, th, outcome))
  {
    var db' := CommitIn(db, th, outcome).db;
    if outcome == Failed { QuietKeeps(db, db'); } else {
      forall s ensures RowKept(db, db', s) { }
      forall k ensures IntentKept(db, db', k) { }
      assert InRow(db', th.key);
    }
  }

  lemma ReturnKeeps(db: Db, db': Db, t: ThreadId, key: Key)
    requires Keeping(db, db') && Guarantee(db, Returned(db', key), t) && Safe(db', key)
    ensures Keeping(db, Returned(db', key))
  {
    var db2 := Returned(db', key);
    forall s ensures RowKept(db, db2, s) { assert RowKept(db, db', s); }
    forall k ensures IntentKept(db, db2, k) { assert IntentKept(db, db', k); }
  }

  lemma CommitReusingKeeps(db: Db, t: ThreadId, th: Thread, outcome: Outcome)
    requires Global(db) && Holds(db, t, th) && th.Reusing? && Safe(db, th.key)
    requires Guarantee(db, CommitIn(db, th, outcome).db, t)
    ensures Moved(db, CommitIn(db, th, outcome))
  {
    QuietKeeps(db, Ended(db, th));
    if outcome == Done { ReturnKeeps(db, Ended(db, th), t, th.key); }
  }

  lemma EffectKeepsKeys(db: Db, b: Binding, e: Effect)
    requires Global(db) && RowsExcused(db, b) && b in db.creds
    ensures Keeping(db, Unlock(ApplyEffect(db, b, e), b))
  {
    var db' := Unlock(ApplyEffect(db, b, e), b);
    forall s ensures RowKept(db, db', s) {
      if s in db.rows && s.binding == b { ExcusedMayGo(db, db.rows[s].key); }
    }
    forall k ensures IntentKept(db, db', k) { }
  }

  /** Neither the two tables of keys nor the history of any key changes, but for its end or its revocation. */
  predicate SameTables(db: Db, db': Db) {
    db' == db.(creds := db'.creds, fences := db'.fences, locks := db'.locks, info := db'.info,
               acked := db'.acked, closed := db'.closed, delivered := db'.delivered)
  }

  lemma EndedIsQuiet(db: Db, th: Thread)
    ensures SameTables(db, Ended(db, th))
  {
  }

  lemma ConcludesQuietly(db: Db, th: Thread, outcome: Outcome)
    requires th.Concluding?
    requires !(th.cause.purpose.Control? && th.cause.held && outcome != Failed && th.result != Failure)
    ensures SameTables(db, ConcludeIn(db, th, outcome).db)
  {
    EndedIsQuiet(db, th);
    if th.cause.purpose == Attention && th.cause.binding in db.creds {
      var b := th.cause.binding;
      var written := db.(creds := db.creds[b := db.creds[b].(active := false)]);
      EndedIsQuiet(written, th);
    }
  }

  lemma ConcludeKeeps(db: Db, t: ThreadId, th: Thread, outcome: Outcome)
    requires Global(db) && Holds(db, t, th) && th.Concluding?
    ensures Moved(db, ConcludeIn(db, th, outcome))
  {
    if th.cause.purpose.Control? && th.cause.held && outcome != Failed && th.result != Failure {
      EffectKeepsKeys(db, th.cause.binding, th.cause.purpose.effect);
    } else {
      ConcludesQuietly(db, th, outcome);
      QuietKeeps(db, ConcludeIn(db, th, outcome).db);
    }
  }

  lemma ConfirmingIsQuiet(db: Db, th: Thread, outcome: Outcome)
    requires th.Confirming?
    ensures SameTables(db, CommitIn(db, th, outcome).db)
  {
    EndedIsQuiet(db, th);
  }

  lemma CommitKeyKeeps(db: Db, t: ThreadId, th: Thread, outcome: Outcome)
    requires Global(db) && Holds(db, t, th) && (th.Written? || th.Reusing?)
    requires th.Reusing? ==> Safe(db, th.key)
    requires Guarantee(db, CommitIn(db, th, outcome).db, t)
    ensures Moved(db, CommitIn(db, th, outcome))
  {
    if th.Written? { CommitRowKeeps(db, t, th, outcome); } else { CommitReusingKeeps(db, t, th, outcome); }
  }

  lemma CommitKeeps(db: Db, t: ThreadId, th: Thread, outcome: Outcome)
    requires Global(db) && Holds(db, t, th) && Can(db, t, th, Commit(outcome))
    requires th.Reusing? ==> Safe(db, th.key)
    requires Guarantee(db, CommitIn(db, th, outcome).db, t)
    ensures Moved(db, CommitIn(db, th, outcome))
  {
    if th.Written? || th.Reusing? { CommitKeyKeeps(db, t, th, outcome); }
    else if th.Concluding? { ConcludeKeeps(db, t, th, outcome); }
    else {
      ConfirmingIsQuiet(db, th, outcome);
      QuietKeeps(db, CommitIn(db, th, outcome).db);
    }
  }

  lemma DropKeeps(db: Db, key: Key, id: IntentId)
    requires Global(db) && id in db.idOf && db.idOf[id] == key && Safe(db, key)
    requires IsReady(db, key) && db.intents[key].id == id ==> key in db.acked
    ensures Keeping(db, IntentIn(db, id)) && Safe(IntentIn(db, id), key)
  {
    forall k ensures IntentKept(db, IntentIn(db, id), k) { assert KeyOk(db, k); }
  }

  lemma FinalizeKeeps(db: Db, t: ThreadId, th: Thread, outcome: Outcome)
    requires Global(db) && Holds(db, t, th) && th.Finalizing? && Safe(db, th.key)
    requires Guarantee(db, FinalizeIn(db, th.key, th.id, outcome).db, t)
    ensures Moved(db, FinalizeIn(db, th.key, th.id, outcome))
  {
    if outcome == Failed || FinalizeRefused(db.intents, th.id) { QuietKeeps(db, db); } else {
      DropKeeps(db, th.key, th.id);
      if outcome == Done { ReturnKeeps(db, IntentIn(db, th.id), t, th.key); }
    }
  }

  lemma RowDropKeeps(db: Db, j: Job)
    requires Global(db) && JobHolds(db, j) && j.stage == RowStage
    ensures Keeping(db, RowIn(db, j.key))
  {
    var db' := RowIn(db, j.key);
    forall s ensures RowKept(db, db', s) { assert RowOk(db, s); }
    forall k ensures IntentKept(db, db', k) { }
  }

  lemma MarkKeeps(db: Db, j: Job)
    ensures Keeping(db, MarkIn(db, j.key, j.id))
  {
    QuietKeeps(db, MarkIn(db, j.key, j.id));
  }

  lemma CallKeeps(db: Db, key: Key, outcome: Outcome, recovery: bool)
    ensures Keeping(db, CallIn(db, key, outcome, recovery))
  {
    QuietKeeps(db, CallIn(db, key, outcome, recovery));
  }

  /** revokeIssuedArtifact drops the row, and then the intent, of an acknowledged key. */
  lemma RevokeKeeps(db: Db, j: Job, outcome: Outcome, recovery: bool)
    requires Global(db) && JobHolds(db, j)
    ensures Keeping(db, RevokeIn(db, j, outcome, recovery))
  {
    QuietKeeps(db, db);
    match j.stage
    case MarkStage => MarkKeeps(db, j);
    case CallStage => CallKeeps(db, j.key, outcome, recovery);
    case RowStage => RowDropKeeps(db, j);
    case IntentStage => if outcome != Failed { DropKeeps(db, j.key, j.id); }
  }

  lemma MarksKeep(db: Db, mid: Db, db': Db)
    requires Keeping(db, mid) && db' == mid.(unmarked := db'.unmarked, compensated := db'.compensated)
    ensures Keeping(db, db')
  {
    forall s ensures RowKept(db, db', s) { assert RowKept(db, mid, s); }
    forall k ensures IntentKept(db, db', k) { assert IntentKept(db, mid, k); }
  }

  lemma CompensateKeeps(db: Db, job: Job, outcome: Outcome)
    requires Global(db) && JobHolds(db, job)
    ensures Keeping(db, CompensateIn(db, job, outcome))
  {
    RevokeKeeps(db, job, outcome, false);
    MarksKeep(db, RevokeIn(db, job, outcome, false), CompensateIn(db, job, outcome));
  }

  lemma RevokeMoveKeeps(db: Db, t: ThreadId, th: Thread, outcome: Outcome)
    requires Global(db) && Holds(db, t, th) && Can(db, t, th, Revoke(outcome))
    ensures Moved(db, RevokeNext(db, th, outcome))
  {
    match th
    case Compensating(job) => CompensateKeeps(db, job, outcome);
    case RecoveringOne(_, _, job) => RevokeKeeps(db, job, outcome, true);
    case Revoking(_, jobs, index, stage, _) => RevokeKeeps(db, jobs[index].(stage := stage), outcome, false);
  }

  /** A resolution drops the intent of a key whose visible row is committed, or turns it ready. */
  lemma ResolveKeeps(db: Db, t: ThreadId, th: Thread, outcome: Outcome)
    requires Global(db) && Holds(db, t, th) && Can(db, t, th, Resolve(outcome))
    ensures Moved(db, ResolveIn(db, th, outcome))
  {
    var claimed, db' := th.queue[0], ResolveIn(db, th, outcome).db;
    if outcome != Failed && Leased(db.intents, claimed.key, claimed.id, th.token) && KeptByRow(db, claimed.key) {
      assert db' == db.(intents := db.intents - {claimed.key});
      forall k ensures IntentKept(db, db', k) { if k == claimed.key { assert InRow(db', k); } }
    } else {
      QuietKeeps(db, db');
    }
  }

  lemma StageKeeps(db: Db, th: Thread, id: IntentId, outcome: Outcome)
    requires th.Issued? || (th.Staging? && |th.jobs| < |th.listed|)
    ensures Moved(db, StageNext(db, th, id, outcome))
  {
    var db' := StageNext(db, th, id, outcome).db;
    forall s ensures RowKept(db, db', s) { }
    forall k ensures IntentKept(db, db', k) { }
  }

  lemma StageAloneKeeps(db: Db, key: Key, id: IntentId, outcome: Outcome)
    ensures Moved(db, StageAloneIn(db, key, id, outcome))
  {
    var db' := StageAloneIn(db, key, id, outcome).db;
    forall s ensures RowKept(db, db', s) { }
    forall k ensures IntentKept(db, db', k) { }
  }

  lemma MarkRowsKeeps(db: Db, th: Thread, outcome: Outcome)
    requires th.Marking?
    ensures Moved(db, MarkRowsIn(db, th, outcome))
  {
    var db' := MarkRowsIn(db, th, outcome).db;
    forall s ensures RowKept(db, db', s) { }
    forall k ensures IntentKept(db, db', k) { }
  }

  lemma ReleaseKeeps(db: Db, th: Thread, outcome: Outcome)
    requires th.Releasing?
    ensures Moved(db, After(ReleasedIn(db, th.id, th.token, outcome), Some(Recovering(th.token, th.queue))))
  {
    QuietKeeps(db, ReleasedIn(db, th.id, th.token, outcome));
  }

  lemma ReadKeeps(db: Db, t: ThreadId, th: Thread)
    requires Global(db) && Holds(db, t, th) && th.Checked?
    ensures Moved(db, After(db, Some(ReadStored(db, th.slot, th.generation))))
  {
    QuietKeeps(db, db);
    assert RowOk(db, th.slot);
  }

  /** The moves that write the saga's tables. */
  predicate Writes(m: Move) {
    m.Stage? || m.Commit? || m.Finalize? || m.Revoke? || m.MarkRows? || m.Resolve? || m.Release? || m.ReadArtifact?
    || m.StageAlone?
  }

  lemma LockedMoveKeeps(db: Db, t: ThreadId, th: Thread, m: Move)
    requires Global(db) && Holds(db, t, th) && Can(db, t, th, m) && (m.Stage? || m.Commit? || m.ReadArtifact?)
    requires th.Reusing? ==> Safe(db, th.key)
    requires Guarantee(db, MoveIn(db, t, th, m).db, t)
    ensures Moved(db, MoveIn(db, t, th, m))
  {
    if m.Commit? { CommitKeeps(db, t, th, m.outcome); }
    else if m.Stage? { StageKeeps(db, th, m.id, m.outcome); }
    else { ReadKeeps(db, t, th); }
  }

  lemma IntentMoveKeeps(db: Db, t: ThreadId, th: Thread, m: Move)
    requires Global(db) && Holds(db, t, th) && Can(db, t, th, m) && (m.Finalize? || m.Resolve? || m.Release?)
    requires th.Finalizing? ==> Safe(db, th.key)
    requires Guarantee(db, MoveIn(db, t, th, m).db, t)
    ensures Moved(db, MoveIn(db, t, th, m))
  {
    if m.Finalize? { FinalizeKeeps(db, t, th, m.outcome); }
    else if m.Resolve? { ResolveKeeps(db, t, th, m.outcome); }
    else { ReleaseKeeps(db, th, m.outcome); }
  }

  ghost predicate Untouched(db: Db, after: After) {
    SameTables(db, after.db) && (after.thread.Some? ==> !after.thread.value.Finalizing? && !after.thread.value.Reusing?)
  }

  lemma EndingIsQuiet(db: Db, t: ThreadId, th: Thread, m: Move)
    requires Can(db, t, th, m) && Ends(m)
    ensures Untouched(db, MoveIn(db, t, th, m))
  {
    if !m.RevokeUntracked? { EndedIsQuiet(db, th); }
  }

  lemma ReadingIsQuiet(db: Db, t: ThreadId, th: Thread, m: Move)
    requires Can(db, t, th, m) && !Writes(m) && !m.DeleteRows?
    requires !Ends(m)
    ensures Untouched(db, MoveIn(db, t, th, m))
  {
  }

  lemma UntouchedKeeps(db: Db, after: After)
    requires Untouched(db, after)
    ensures Moved(db, after)
  {
    QuietKeeps(db, after.db);
  }

  /** The moves that write none of the saga's tables. */
  lemma RestIsQuiet(db: Db, t: ThreadId, th: Thread, m: Move)
    requires Can(db, t, th, m) && !Writes(m) && !m.DeleteRows?
    ensures Untouched(db, MoveIn(db, t, th, m))
  {
    if Ends(m) { EndingIsQuiet(db, t, th, m); } else { ReadingIsQuiet(db, t, th, m); }
  }

  lemma QuietMoveKeeps(db: Db, t: ThreadId, th: Thread, m: Move)
    requires Can(db, t, th, m) && !Writes(m) && !m.DeleteRows?
    ensures Moved(db, MoveIn(db, t, th, m))
  {
    RestIsQuiet(db, t, th, m);
    UntouchedKeeps(db, MoveIn(db, t, th, m));
  }

  lemma MoveKeeps(db: Db, t: ThreadId, th: Thread, m: Move)
    requires Global(db) && Holds(db, t, th) && Can(db, t, th, m) && !m.DeleteRows?
    requires th.Finalizing? || th.Reusing? ==> Safe(db, th.key)
    requires Guarantee(db, MoveIn(db, t, th, m).db, t)
    ensures Moved(db, MoveIn(db, t, th, m))
  {
    if m.Stage? || m.Commit? || m.ReadArtifact? { LockedMoveKeeps(db, t, th, m); }
    else if m.MarkRows? { MarkRowsKeeps(db, th, m.outcome); }
    else if m.Finalize? || m.Resolve? || m.Release? { IntentMoveKeeps(db, t, th, m); }
    else if m.Revoke? { RevokeMoveKeeps(db, t, th, m.outcome); }
    else if m.StageAlone? { StageAloneKeeps(db, th.key, m.id, m.outcome); }
    else { QuietMoveKeeps(db, t, th, m); }
  }

  lemma BeginKeeps(db: Db, t: ThreadId, r: Request)
    requires CanBegin(db, t, r)
    ensures Moved(db, BeginIn(db, t, r))
  {
    QuietKeeps(db, BeginIn(db, t, r).db);
  }

  lemma HappenKeeps(db: Db, e: Event)
    requires CanHappen(db, e)
    ensures Keeping(db, HappenTo(db, e))
  {
    var db' := HappenTo(db, e);
    forall s ensures RowKept(db, db', s) { }
    forall k ensures IntentKept(db, db', k) { }
  }

  // ---------- The step ----------

  lemma KeyTrackedAfter(w: World, w': World, t: ThreadId, k: Key)
    requires KeyTracked(w, k) && Guarantee(w.db, w'.db, t) && Keeping(w.db, w'.db)
    requires forall u :: u in w'.threads && HandsOut(w'.threads[u], k) ==>
      Safe(w'.db, k) || (u in w.threads && HandsOut(w.threads[u], k))
    ensures KeyTracked(w', k)
  {
    assert IntentKept(w.db, w'.db, k) && KeyStep(w.db, w'.db, t, k);
    if Safe(w.db, k) { SafeStays(w.db, w'.db, t, k); }
  }

  /** Threads that are about to hand out a key have stood there before, or the key is safe. */
  ghost predicate ThreadsKept(w: World, w': World) {
    forall u, k :: u in w'.threads && HandsOut(w'.threads[u], k) ==>
      Safe(w'.db, k) || (u in w.threads && HandsOut(w.threads[u], k))
  }

  lemma AllTrackedAfter(w: World, w': World, t: ThreadId)
    requires AllTracked(w) && Guarantee(w.db, w'.db, t) && Keeping(w.db, w'.db) && ThreadsKept(w, w')
    ensures AllTracked(w')
  {
    forall k ensures KeyTracked(w', k) {
      assert KeyTracked(w, k);
      KeyTrackedAfter(w, w', t, k);
    }
  }

  lemma PutKeepsThreads(w: World, t: ThreadId, after: After)
    requires Moved(w.db, after)
    ensures ThreadsKept(w, World(after.db, Put(w.threads, t, after.thread)))
  {
  }

  lemma MoveKeepsTracked(w: World, t: ThreadId, m: Move)
    requires Inv(w) && AllTracked(w) && Enabled(w, Act(t, m)) && !m.DeleteRows?
    ensures AllTracked(Apply(w, Act(t, m)))
  {
    StepKeepsInv(w, Act(t, m));
    var th, w' := w.threads[t], Apply(w, Act(t, m));
    if th.Finalizing? || th.Reusing? { assert KeyTracked(w, th.key) && HandsOut(th, th.key); }
    MoveKeeps(w.db, t, th, m);
    PutKeepsThreads(w, t, MoveIn(w.db, t, th, m));
    AllTrackedAfter(w, w', t);
  }

  /** A careful delete takes the row of a safe key only if the key stays safe, or under an intent nobody is about to drop. */
  lemma DeleteKeepsRows(w: World, t: ThreadId, outcome: Outcome, k: Key)
    requires Inv(w) && Enabled(w, Act(t, DeleteRows(outcome))) && Careful(w, Act(t, DeleteRows(outcome))) && Safe(w.db, k)
    ensures Safe(DeleteRowsIn(w.db, w.threads[t], outcome).db, k) || MayLoseRow(w, k)
  {
    assert KeyOk(w.db, k);
    if InRow(w.db, k) && outcome != Failed && w.db.info[k].slot.binding == w.threads[t].cause.binding {
      assert w.db.rows[w.db.info[k].slot].key == k;
    }
  }

  /** A key that was or may be handed out is under no intent that its issuer will not drop. */
  lemma HandedOutMayLoseRow(w: World, k: Key)
    requires Inv(w) && MayLoseRow(w, k)
    requires k in w.db.returned || exists u :: u in w.threads && HandsOut(w.threads[u], k)
    ensures Expired(w.db, k) || k in w.db.acked || IsReady(w.db, k)
  {
    assert KeyOk(w.db, k);
    if k !in w.db.returned {
      var u :| u in w.threads && HandsOut(w.threads[u], k);
      assert Holds(w.db, u, w.threads[u]);
    }
  }

  lemma DeleteKeepsKey(w: World, t: ThreadId, outcome: Outcome, k: Key)
    requires Inv(w) && Enabled(w, Act(t, DeleteRows(outcome))) && Careful(w, Act(t, DeleteRows(outcome))) && KeyTracked(w, k)
    ensures KeyTracked(Apply(w, Act(t, DeleteRows(outcome))), k)
  {
    if Safe(w.db, k) {
      DeleteKeepsRows(w, t, outcome, k);
      if MayLoseRow(w, k) && (k in w.db.returned || exists u :: u in w.threads && HandsOut(w.threads[u], k)) { HandedOutMayLoseRow(w, k); }
    }
  }

  lemma DeleteKeepsTracked(w: World, t: ThreadId, outcome: Outcome)
    requires Inv(w) && AllTracked(w) && Enabled(w, Act(t, DeleteRows(outcome))) && Careful(w, Act(t, DeleteRows(outcome)))
    ensures AllTracked(Apply(w, Act(t, DeleteRows(outcome))))
  {
    forall k ensures KeyTracked(Apply(w, Act(t, DeleteRows(outcome))), k) {
      assert KeyTracked(w, k);
      DeleteKeepsKey(w, t, outcome, k);
    }
  }

  lemma BeginKeepsTracked(w: World, t: ThreadId, r: Request)
    requires Inv(w) && AllTracked(w) && Enabled(w, Begin(t, r))
    ensures AllTracked(Apply(w, Begin(t, r)))
  {
    StepKeepsInv(w, Begin(t, r));
    BeginKeeps(w.db, t, r);
    PutKeepsThreads(w, t, BeginIn(w.db, t, r));
    AllTrackedAfter(w, Apply(w, Begin(t, r)), t);
  }

  lemma HappenKeepsTracked(w: World, e: Event)
    requires Inv(w) && AllTracked(w) && Enabled(w, Happen(e))
    ensures AllTracked(Apply(w, Happen(e)))
  {
    StepKeepsInv(w, Happen(e));
    HappenKeeps(w.db, e);
    AllTrackedAfter(w, Apply(w, Happen(e)), 0);
  }

  lemma StepKeepsTracked(w: World, a: Action)
    requires Inv(w) && AllTracked(w) && Enabled(w, a) && Careful(w, a)
    ensures AllTracked(Apply(w, a))
  {
    match a
    case Happen(e) => HappenKeepsTracked(w, e);
    case Begin(t, r) => BeginKeepsTracked(w, t, r);
    case Act(t, m) => if m.DeleteRows? { DeleteKeepsTracked(w, t, m.outcome); } else { MoveKeepsTracked(w, t, m); }
  }

  lemma {:induction false} RunKeepsTracked(w: World, actions: seq<Action>)
    requires Inv(w) && AllTracked(w) && Runs(w, actions) && AllCareful(w, actions)
    ensures AllTracked(Final(w, actions)) && NoOrphan(Final(w, actions).db)
    decreases |actions|
  {
    if |actions| > 0 {
      StepKeepsInv(w, actions[0]);
      StepKeepsTracked(w, actions[0]);
      RunKeepsTracked(Apply(w, actions[0]), actions[1..]);
    } else {
      forall k | k in w.db.staged ensures Tracked(w.db, k) { assert KeyTracked(w, k); }
    }
  }

  lemma NoOrphanedKey(actions: seq<Action>)
    requires Runs(EMPTY_WORLD, actions) && AllCareful(EMPTY_WORLD, actions)
    ensures NoOrphan(Final(EMPTY_WORLD, actions).db)
  {
    EmptyWorldInv();
    RunKeepsTracked(EMPTY_WORLD, actions);
  }

}
