/** One move, and one request or event, as far as keys are concerned: what every invariant about keys builds on. */
module SagaMoves {
  import opened SagaState
  import opened SagaSteps
  import opened SagaInvariant
  import opened SagaTheorems
  import opened SagaTracking
  import opened SagaFairness
  import opened SagaFairnessProof

  // ---------- Moves ----------

  /** A thread that is about to hand out a key has just committed its row, or has read it under the row lock. */
  ghost predicate MayHandOut(db: Db, th: Thread, k: Key) {
    HandsOut(th, k) ==>
      if th.Finalizing? then k !in db.closed else InRow(db, k) && (k in db.intents ==> k in db.invalidated)
  }

  ghost predicate NextIsEven(w: World, t: ThreadId, next: Thread)
    requires t in w.threads
  {
    && (Worker(next) ==> Worker(w.threads[t]) && WorkerGoesOn(w.threads[t], next))
    && (forall k :: MayHandOut(w.db, next, k))
    && (next.Finalizing? || next.Reusing? ==> w.threads[t].Written? || w.threads[t].Checked?)
  }

  /** A move of thread t from w to w', as far as keys are concerned. */
  ghost predicate EvenMove(w: World, w': World, t: ThreadId, m: Move) {
    && Inv(w) && Inv(w') && Guarantee(w.db, w'.db, t)
    && t in w.threads && MovedEvenly(w.db, w.threads[t], m, w'.db)
    && (forall u :: u in w'.threads && u != t ==> u in w.threads && w.threads[u] == w'.threads[u])
    && (forall u :: u in w.threads && u != t ==> u in w'.threads)
    && (t in w'.threads ==> NextIsEven(w, t, w'.threads[t]))
  }

  lemma NextThreadFacts(w: World, t: ThreadId, m: Move)
    requires Inv(w) && Enabled(w, Act(t, m)) && MoveIn(w.db, t, w.threads[t], m).thread.Some?
    ensures NextIsEven(w, t, MoveIn(w.db, t, w.threads[t], m).thread.value)
  {
    var th := w.threads[t];
    var next := MoveIn(w.db, t, th, m).thread.value;
    WhoHandsOut(w.db, t, th, m);
    assert Holds(w.db, t, th);
    if Worker(next) { WorkerNext(w.db, t, th, m); }
    forall k ensures MayHandOut(w.db, next, k) {
      if HandsOut(next, k) { NextHandsOut(w.db, t, th, m, k); }
    }
  }

  lemma AssembleMove(w: World, after: After, t: ThreadId, m: Move)
    requires Inv(w) && t in w.threads && MovedEvenly(w.db, w.threads[t], m, after.db)
    requires Inv(World(after.db, Put(w.threads, t, after.thread))) && Guarantee(w.db, after.db, t)
    requires after.thread.Some? ==> NextIsEven(w, t, after.thread.value)
    ensures EvenMove(w, World(after.db, Put(w.threads, t, after.thread)), t, m)
  {
  }

  lemma MoveIsEven(w: World, t: ThreadId, m: Move)
    requires Inv(w) && Enabled(w, Act(t, m))
    ensures EvenMove(w, Apply(w, Act(t, m)), t, m)
  {
    var after := MoveIn(w.db, t, w.threads[t], m);
    StepKeepsInv(w, Act(t, m));
    MoveEven(w.db, t, w.threads[t], m);
    if after.thread.Some? { NextThreadFacts(w, t, m); }
    AssembleMove(w, after, t, m);
  }

  lemma NotInRowAfter(db: Db, db': Db, t: ThreadId, k: Key)
    requires Guarantee(db, db', t) && !InRow(db, k) && k in db.closed && k in db.info
    ensures !InRow(db', k)
  {
    assert KeyStep(db, db', t, k) && RowStep(db, db', t, db.info[k].slot);
  }

  /** What the move does to one key. */
  lemma KeyMoved(w: World, w': World, t: ThreadId, m: Move, k: Key)
    requires EvenMove(w, w', t, m)
    ensures KeyOk(w.db, k) && KeyStep(w.db, w'.db, t, k)
    ensures IntentEven(w.db, w.threads[t], w'.db, k) && UseEven(w.db, w.threads[t], w'.db, k)
    ensures Excused(w.db, k) ==> Excused(w'.db, k)
    ensures k in w.db.closed && !InRow(w.db, k) ==> !InRow(w'.db, k)
  {
    assert KeyOk(w.db, k) && KeyStep(w.db, w'.db, t, k);
    ExcusedStable(w.db, w'.db, k);
    if k in w.db.closed && !InRow(w.db, k) { NotInRowAfter(w.db, w'.db, t, k); }
  }

  /** No invalidation apart, a key out of reach stays so. */
  lemma OutOfReachStays(w: World, w': World, t: ThreadId, m: Move, k: Key)
    requires EvenMove(w, w', t, m) && OutOfReach(w, k) && k in w.db.closed && k !in w'.db.invalidated
    ensures OutOfReach(w', k)
  {
    KeyMoved(w, w', t, m, k);
    forall u | u in w'.threads ensures !HandsOut(w'.threads[u], k) {
      if u == t { assert MayHandOut(w.db, w'.threads[t], k); }
    }
  }

  // ---------- Requests and events ----------

  /** The phases a request begins with. */
  predicate Beginning(th: Thread) {
    th.Locked? || th.Listing? || th.Confirming? || th.Recovering?
  }

  /** No thread moves; at most a new one begins. */
  ghost predicate ThreadsCalm(w: World, w': World, t: ThreadId) {
    && (forall u :: u in w'.threads && u != t ==> u in w.threads && w.threads[u] == w'.threads[u])
    && (t in w'.threads && t !in w.threads ==> Beginning(w'.threads[t]))
    && (t in w.threads ==> t in w'.threads && w'.threads[t] == w.threads[t])
  }

  /** The step of somebody who is no thread yet, or of nobody: it only touches locks, leases, credentials, time and dead rows. */
  ghost predicate CalmStep(w: World, w': World, t: ThreadId) {
    && Inv(w) && Inv(w') && Guarantee(w.db, w'.db, t)
    && w'.db.barred == w.db.barred && w'.db.committed == w.db.committed
    && w'.db.returned == w.db.returned && w'.db.recovered == w.db.recovered && w'.db.acked == w.db.acked
    && w'.db.unmarked == w.db.unmarked && w'.db.compensated == w.db.compensated
    && w'.db.intents.Keys == w.db.intents.Keys
    && (forall k :: k in w.db.intents ==> w'.db.intents[k].state == w.db.intents[k].state)
    && RowsEven(w.db, w'.db) && w'.db.closed == w.db.closed
    && ThreadsCalm(w, w', t)
  }

  lemma BeginIsCalm(w: World, t: ThreadId, r: Request)
    requires Inv(w) && Enabled(w, Begin(t, r))
    ensures CalmStep(w, Apply(w, Begin(t, r)), t)
  {
    var after := BeginIn(w.db, t, r);
    StepKeepsInv(w, Begin(t, r));
    SameRowsEven(w.db, after.db, t);
  }

  lemma HappenRowsEven(db: Db, e: Event)
    requires CanHappen(db, e)
    ensures RowsEven(db, HappenTo(db, e))
  {
    forall k ensures RowEven(db, HappenTo(db, e), k) { }
  }

  /** An event is nobody's step, so it may count as the step of anybody. */
  lemma HappenIsCalm(w: World, e: Event, t: ThreadId)
    requires Inv(w) && Enabled(w, Happen(e))
    ensures CalmStep(w, Apply(w, Happen(e)), t)
  {
    StepKeepsInv(w, Happen(e));
    HappenSound(w.db, t, e);
    HappenRowsEven(w.db, e);
  }

}
