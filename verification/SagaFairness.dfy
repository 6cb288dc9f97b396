/**
 Recovery does not revoke a key that is handed out. Exactly the two statements with which an invalidation
 hides or deletes rows can break that, and `Fair` says when.
 */
module SagaFairness {
  import opened SagaState
  import opened SagaSteps
  import opened SagaInvariant
  import opened SagaTracking

  // ---------- Which claims can still come ----------

  predicate Worker(th: Thread) {
    th.Recovering? || th.RecoveringOne? || th.Releasing?
  }

  predicate IsProvisional(db: Db, k: Key) {
    k in db.intents && db.intents[k].state == Provisional
  }

  /** When the intent is due for its next claim, if nobody releases its lease before. */
  function ClaimTime(intent: Intent): nat {
    if intent.lease.Held? && intent.readyAfter < intent.lease.expires then intent.lease.expires else intent.readyAfter
  }

  /** The worker has the key ahead of it, and its lease is the one in force. */
  ghost predicate Queued(db: Db, th: Thread, k: Key)
    requires Worker(th)
  {
    exists i :: 0 <= i < |th.queue| && th.queue[i].key == k && Leased(db.intents, k, th.queue[i].id, th.token)
  }

  /** The worker is about to give the key's lease back, and then the key can be claimed before it expires. */
  predicate GivesBack(db: Db, th: Thread, k: Key) {
    && th.Releasing? && Leased(db.intents, k, th.id, th.token)
    && k in db.info && db.intents[k].readyAfter < db.info[k].expires
  }

  ghost predicate Claims(db: Db, th: Thread, k: Key) {
    Worker(th) && (Queued(db, th, k) || GivesBack(db, th, k))
  }

  /** Some worker can come to resolve the key's provisional intent before the key expires. */
  ghost predicate InTime(w: World, k: Key) {
    && k in w.db.intents && k in w.db.info
    && (|| ClaimTime(w.db.intents[k]) < w.db.info[k].expires
        || exists u :: u in w.threads && Claims(w.db, w.threads[u], k))
  }

  // ---------- What is to be kept ----------

  /** The issuer is about to finalize the key, but a resolution would no longer find its row. */
  ghost predicate Hidden(w: World, k: Key) {
    && IsProvisional(w.db, k) && k in w.db.committed && !Expired(w.db, k) && !KeptByRow(w.db, k)
    && BeingFinalized(w, k)
  }

  /** A key that compensation or recovery took is out of reach of every request, unless an invalidation excuses it. */
  ghost predicate OutOfReach(w: World, k: Key) {
    && k !in w.db.returned && (IsReady(w.db, k) || !InRow(w.db, k))
    && (forall u :: u in w.threads ==> !HandsOut(w.threads[u], k))
  }

  ghost predicate KeyFair(w: World, k: Key) {
    && (k in w.db.recovered && k in w.db.returned ==> k in w.db.invalidated)
    && (k in w.db.barred && !Excused(w.db, k) ==> OutOfReach(w, k))
    && (Hidden(w, k) ==> !InTime(w, k))
  }

  ghost predicate AllFair(w: World) {
    forall k :: KeyFair(w, k)
  }

  // ---------- Which statements are fair ----------

  /** The key is live, its issuer is about to return it, and only its row keeps recovery from revoking it. */
  ghost predicate Exposed(w: World, k: Key) {
    IsProvisional(w.db, k) && !Expired(w.db, k) && BeingFinalized(w, k) && InTime(w, k)
  }

  /** The thread is at the statement that hides, or at the one that deletes, all rows of its binding. */
  predicate TakesRows(th: Thread, m: Move) {
    (m.MarkRows? && th.Marking? && m.outcome != Failed) || (m.DeleteRows? && th.Deleting? && m.outcome != Failed)
  }

  /** The action takes no row of an exposed key. */
  ghost predicate Fair(w: World, a: Action) {
    a.Act? && a.t in w.threads && TakesRows(w.threads[a.t], a.move) ==>
      forall s :: s in w.db.rows && s.binding == w.threads[a.t].cause.binding ==> !Exposed(w, w.db.rows[s].key)
  }

  ghost predicate AllActionsFair(w: World, actions: seq<Action>)
    decreases |actions|
  {
    |actions| > 0 ==> Fair(w, actions[0]) && AllActionsFair(Apply(w, actions[0]), actions[1..])
  }

  // ---------- What a statement does to one key ----------

  /** The intent is as it was, or the worker that held its lease has given it back. */
  predicate SameIntent(db: Db, db': Db, th: Thread, k: Key)
    requires k in db.intents && k in db'.intents
  {
    || db'.intents[k] == db.intents[k]
    || (th.Releasing? && Leased(db.intents, k, th.id, th.token) && db'.intents[k] == db.intents[k].(lease := Free))
  }

  /** A resolution found no row for the key at the head of the worker's claim. */
  predicate Resolving(db: Db, th: Thread, k: Key) {
    && th.Recovering? && |th.queue| > 0 && th.queue[0].key == k
    && Leased(db.intents, k, th.queue[0].id, th.token) && !KeptByRow(db, k)
  }

  /** Provisional intents of committed keys are old, and go ready only by compensation, invalidation or resolution. */
  ghost predicate IntentEven(db: Db, th: Thread, db': Db, k: Key) {
    && (k in db'.committed && k !in db.committed ==> KeptByRow(db', k))
    && (IsProvisional(db', k) && k in db'.committed ==> IsProvisional(db, k) && SameIntent(db, db', th, k))
    && (IsReady(db, k) && k !in db'.intents ==> !InRow(db', k))
    && (k in db'.barred && k !in db.barred ==>
          && IsReady(db', k) && IsProvisional(db, k)
          && ((th.Compensating? && th.job.key == k) || k in db.invalidated || Resolving(db, th, k)))
  }

  ghost predicate UseEven(db: Db, th: Thread, db': Db, k: Key) {
    && (k in db'.returned && k !in db.returned ==> HandsOut(th, k) && !Expired(db', k))
    && (k in db'.recovered && k !in db.recovered ==> Condemned(db, k) && !Expired(db, k))
  }

  /** A row that kept a provisional intent's key still does. */
  ghost predicate RowEven(db: Db, db': Db, k: Key) {
    KeptByRow(db, k) && IsProvisional(db', k) && !Expired(db', k) ==> KeptByRow(db', k)
  }

  ghost predicate Even(db: Db, th: Thread, db': Db) {
    forall k :: IntentEven(db, th, db', k) && UseEven(db, th, db', k)
  }

  ghost predicate RowsEven(db: Db, db': Db) {
    forall k :: RowEven(db, db', k)
  }

  ghost predicate Alike(db: Db, db': Db) {
    && db'.intents == db.intents && db'.barred == db.barred && db'.committed == db.committed
    && db'.returned == db.returned && db'.recovered == db.recovered
    && (forall s :: s in db'.rows ==> s in db.rows && db'.rows[s].key == db.rows[s].key)
  }

  lemma AlikeIsEven(db: Db, th: Thread, db': Db)
    requires Alike(db, db')
    ensures Even(db, th, db')
  {
  }

  lemma SameRowsEven(db: Db, db': Db, t: ThreadId)
    requires Guarantee(db, db', t) && db'.rows == db.rows
    ensures RowsEven(db, db')
  {
    forall k ensures RowEven(db, db', k) { assert KeyStep(db, db', t, k); }
  }

}
