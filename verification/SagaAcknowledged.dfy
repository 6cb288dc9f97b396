/**
 What a visible row says about its key: in every run whatever, a revoked key is still in its row only while
 its intent is ready, or after a compensation whose mark found no intent. Under the row lock a key is
 therefore live at its delivery exactly when its visible row still carries it.
 */
module SagaAcknowledged {
  import opened SagaState
  import opened SagaSteps
  import opened SagaInvariant
  import opened SagaTheorems
  import opened SagaTracking
  import opened SagaLosses
  import opened SagaFairness
  import opened SagaFairnessProof
  import opened SagaFences
  import opened SagaMoves
  import opened SagaCompensation
  import opened SagaDelivery

  // ---------- Who may ask upstream ----------

  /** The issuing transaction has the key, and may still commit its row. */
  predicate StillIssues(th: Thread, k: Key) {
    (th.Issued? || th.Staged? || th.Written?) && th.key == k
  }

  /** The thread asks upstream to revoke the key with its next statement of revokeIssuedArtifact. */
  predicate Calls(th: Thread, k: Key) {
    || ((th.Compensating? || th.RecoveringOne?) && th.job.key == k && th.job.stage == CallStage)
    || (th.Revoking? && th.index < |th.jobs| && th.jobs[th.index].key == k && th.stage == CallStage)
  }

  /** The worker's claim says that the key is to be revoked. */
  ghost predicate ClaimedReady(th: Thread, k: Key) {
    Worker(th) && exists i :: 0 <= i < |th.queue| && th.queue[i].key == k && th.queue[i].state == Ready
  }

  /** Compensation or recovery has made sure that the key may be revoked. */
  ghost predicate Seizes(th: Thread, k: Key) {
    PastMark(th, k) || (th.RecoveringOne? && th.job.key == k) || ClaimedReady(th, k)
  }

  /** What made sure of it is still there: the ready intent, or the mark that found none. */
  ghost predicate Seized(db: Db, k: Key) {
    IsReady(db, k) || k in db.unmarked
  }

  ghost predicate KeyAccounted(w: World, k: Key) {
    && (k in w.db.acked ==> k in w.db.info)
    && (k in w.db.acked && InRow(w.db, k) ==> Seized(w.db, k))
    && (forall u :: u in w.threads && StillIssues(w.threads[u], k) ==> k !in w.db.acked)
    && (forall u :: u in w.threads && Seizes(w.threads[u], k) ==> k in w.db.acked || Seized(w.db, k))
  }

  ghost predicate AllAccounted(w: World) {
    forall k :: KeyAccounted(w, k)
  }

  // ---------- What a move does ----------

  /** The issuer revokes a key it could not stage. */
  predicate GivesUp(th: Thread, k: Key) {
    (th.Untracked? || th.UntrackedAlone?) && th.key == k
  }

  ghost predicate Acks(db: Db, th: Thread, db': Db) {
    && (forall k :: k in db'.acked && k !in db.acked ==> GivesUp(th, k) || Calls(th, k))
    && (forall k :: k in db'.committed && k !in db.committed ==> th.Written? && th.key == k && db'.acked == db.acked)
  }

  predicate SameAcks(db: Db, db': Db) {
    db'.acked == db.acked && db'.committed == db.committed
  }

  lemma EndedSameAcks(db: Db, th: Thread)
    ensures SameAcks(db, Ended(db, th))
  {
  }

  lemma EffectSameAcks(db: Db, b: Binding, e: Effect)
    requires b in db.creds
    ensures SameAcks(db, ApplyEffect(db, b, e))
  {
  }

  lemma ControlSameAcks(db: Db, th: Thread, outcome: Outcome)
    requires th.Concluding? && th.cause.purpose.Control?
    ensures SameAcks(db, ConcludeIn(db, th, outcome).db)
  {
    EndedSameAcks(db, th);
    if th.cause.binding in db.creds {
      EffectSameAcks(db, th.cause.binding, th.cause.purpose.effect);
      EndedSameAcks(ApplyEffect(db, th.cause.binding, th.cause.purpose.effect), th);
    }
  }

  lemma ConcludeSameAcks(db: Db, th: Thread, outcome: Outcome)
    requires th.Concluding?
    ensures SameAcks(db, ConcludeIn(db, th, outcome).db)
  {
    EndedSameAcks(db, th);
    match th.cause.purpose
    case Control(_) => ControlSameAcks(db, th, outcome);
    case Attention =>
      if th.cause.binding in db.creds {
        EndedSameAcks(db.(creds := db.creds[th.cause.binding := db.creds[th.cause.binding].(active := false)]), th);
      }
    case _ =>
  }

  lemma CommitsRowAcks(db: Db, slot: Slot, key: Key, id: IntentId, outcome: Outcome)
    ensures Acks(db, Written(slot, key, id), CommitIn(db, Written(slot, key, id), outcome).db)
  {
  }

  lemma CommitAcks(db: Db, t: ThreadId, th: Thread, outcome: Outcome)
    requires Can(db, t, th, Commit(outcome))
    ensures Acks(db, th, CommitIn(db, th, outcome).db)
  {
    match th
    case Written(slot, key, id) => CommitsRowAcks(db, slot, key, id, outcome);
    case Reusing(_, _) => EndedSameAcks(db, th);
    case Concluding(_, _) => ConcludeSameAcks(db, th, outcome);
    case Confirming(_, _, _) => EndedSameAcks(db, th);
  }

  lemma WritesSameAcks(db: Db, job: Job)
    ensures SameAcks(db, MarkIn(db, job.key, job.id)) && SameAcks(db, RowIn(db, job.key)) && SameAcks(db, IntentIn(db, job.id))
  {
  }

  lemma StatementAcks(db: Db, job: Job, outcome: Outcome, recovery: bool)
    ensures var db' := RevokeIn(db, job, outcome, recovery);
      db'.committed == db.committed && db'.acked == (if job.stage == CallStage && outcome == Done then db.acked + {job.key} else db.acked)
  {
    WritesSameAcks(db, job);
  }

  lemma RevokeAcks(db: Db, th: Thread, outcome: Outcome)
    requires th.Compensating? || th.RecoveringOne? || (th.Revoking? && th.index < |th.jobs|)
    ensures Acks(db, th, RevokeNext(db, th, outcome).db)
  {
    match th
    case Compensating(job) => StatementAcks(db, job, outcome, false);
    case RecoveringOne(_, _, job) => StatementAcks(db, job, outcome, true);
    case Revoking(_, jobs, index, stage, _) => StatementAcks(db, jobs[index].(stage := stage), outcome, false);
  }

  lemma ResolveSameAcks(db: Db, th: Thread, outcome: Outcome)
    requires th.Recovering? && |th.queue| > 0
    ensures SameAcks(db, ResolveIn(db, th, outcome).db)
  {
  }

  lemma StageSameAcks(db: Db, th: Thread, id: IntentId, outcome: Outcome)
    requires th.Issued? || (th.Staging? && |th.jobs| < |th.listed|)
    ensures SameAcks(db, StageNext(db, th, id, outcome).db)
  {
  }

  lemma FinalizeSameAcks(db: Db, key: Key, id: IntentId, outcome: Outcome)
    ensures SameAcks(db, FinalizeIn(db, key, id, outcome).db)
  {
  }

  lemma StageAloneSameAcks(db: Db, key: Key, id: IntentId, outcome: Outcome)
    ensures SameAcks(db, StageAloneIn(db, key, id, outcome).db)
  {
  }

  lemma RowsSameAcks(db: Db, t: ThreadId, th: Thread, m: Move)
    requires Can(db, t, th, m) && (m.MarkRows? || m.DeleteRows? || m.Release?)
    ensures SameAcks(db, MoveIn(db, t, th, m).db)
  {
  }

  lemma WritingSameAcks(db: Db, t: ThreadId, th: Thread, m: Move)
    requires Can(db, t, th, m) && (m.Stage? || m.Finalize? || m.MarkRows? || m.DeleteRows? || m.Release?)
    ensures SameAcks(db, MoveIn(db, t, th, m).db)
  {
    if m.Stage? { StageSameAcks(db, th, m.id, m.outcome); }
    else if m.Finalize? { FinalizeSameAcks(db, th.key, th.id, m.outcome); }
    else { RowsSameAcks(db, t, th, m); }
  }

  lemma EndingAcks(db: Db, t: ThreadId, th: Thread, m: Move)
    requires Can(db, t, th, m) && (Ends(m) || m.RevokeAlone?)
    ensures Acks(db, th, MoveIn(db, t, th, m).db)
  {
    EndedSameAcks(db, th);
  }

  lemma ReadingSameAcks(db: Db, t: ThreadId, th: Thread, m: Move)
    requires Can(db, t, th, m) && (!Writes(m) || m.ReadArtifact?) && !m.DeleteRows?
    requires !Ends(m) && !m.RevokeAlone?
    ensures SameAcks(db, MoveIn(db, t, th, m).db)
  {
  }

  lemma MoveAcks(db: Db, t: ThreadId, th: Thread, m: Move)
    requires Can(db, t, th, m)
    ensures Acks(db, th, MoveIn(db, t, th, m).db)
  {
    if m.Revoke? { RevokeAcks(db, th, m.outcome); }
    else if m.Commit? { CommitAcks(db, t, th, m.outcome); }
    else if m.Resolve? { ResolveSameAcks(db, th, m.outcome); }
    else if m.Stage? || m.Finalize? || m.MarkRows? || m.DeleteRows? || m.Release? { WritingSameAcks(db, t, th, m); }
    else if m.StageAlone? { StageAloneSameAcks(db, th.key, m.id, m.outcome); }
    else if Ends(m) || m.RevokeAlone? { EndingAcks(db, t, th, m); }
    else { ReadingSameAcks(db, t, th, m); }
  }

  /** A key comes to be issued by its issue upstream only. */
  lemma NextStillIssues(db: Db, t: ThreadId, th: Thread, m: Move, k: Key)
    requires Can(db, t, th, m) && MoveIn(db, t, th, m).thread.Some? && StillIssues(MoveIn(db, t, th, m).thread.value, k)
    ensures StillIssues(th, k) || (th.Issuing? && k !in db.info)
  {
    if m.Revoke? || m.Resolve? || m.Commit? || m.Finalize? { LateMovesIssueNothing(db, t, th, m, k); }
    else if Alone(m) { LonersIssueNothing(db, t, th, m, k); }
  }

  lemma LonersIssueNothing(db: Db, t: ThreadId, th: Thread, m: Move, k: Key)
    requires Alone(m) && Can(db, t, th, m) && AloneIn(db, t, th, m).thread.Some?
    ensures !StillIssues(AloneIn(db, t, th, m).thread.value, k)
  {
  }

  lemma LateMovesIssueNothing(db: Db, t: ThreadId, th: Thread, m: Move, k: Key)
    requires Can(db, t, th, m) && MoveIn(db, t, th, m).thread.Some? && (m.Revoke? || m.Resolve? || m.Commit? || m.Finalize?)
    ensures !StillIssues(MoveIn(db, t, th, m).thread.value, k)
  {
    match m
    case Revoke(_) =>
    case Resolve(_) =>
    case Commit(_) =>
    case Finalize(_) =>
  }

  lemma ResolveRecovers(db: Db, th: Thread, outcome: Outcome, k: Key)
    requires th.Recovering? && |th.queue| > 0
    requires var next := ResolveIn(db, th, outcome).thread; next.Some? && next.value.RecoveringOne? && next.value.job.key == k
    ensures IsReady(ResolveIn(db, th, outcome).db, k)
  {
  }

  /** A worker turns to a key that its claim says is to be revoked, or whose intent its resolution has just made ready. */
  lemma NextRecovers(db: Db, t: ThreadId, th: Thread, m: Move, k: Key)
    requires Can(db, t, th, m) && MoveIn(db, t, th, m).thread.Some?
    requires var next := MoveIn(db, t, th, m).thread.value; Worker(th) && next.RecoveringOne? && next.job.key == k
    ensures Seizes(th, k) || IsReady(MoveIn(db, t, th, m).db, k)
  {
    match m
    case Resolve(outcome) => ResolveRecovers(db, th, outcome, k);
    case TakeReady => assert th.queue[0].key == k;
    case Revoke(_) =>
    case _ =>
  }

  lemma QueueShrinks(th: Thread, next: Thread, k: Key)
    requires Worker(th) && Worker(next) && WorkerGoesOn(th, next) && ClaimedReady(next, k)
    ensures ClaimedReady(th, k)
  {
    var i :| 0 <= i < |next.queue| && next.queue[i].key == k && next.queue[i].state == Ready;
    if next.queue == th.queue { assert th.queue[i] == next.queue[i]; } else { assert th.queue[i + 1] == next.queue[i]; }
  }

  /** A move together with whom it acknowledges and who may go on to. */
  ghost predicate AckedMove(w: World, w': World, t: ThreadId, m: Move) {
    && MarkedMove(w, w', t, m) && Acks(w.db, w.threads[t], w'.db)
    && (t in w'.threads ==> forall k :: NextAcks(w, w', t, k))
  }

  ghost predicate NextAcks(w: World, w': World, t: ThreadId, k: Key)
    requires t in w.threads && t in w'.threads
  {
    && (StillIssues(w'.threads[t], k) ==> StillIssues(w.threads[t], k) || (w.threads[t].Issuing? && k !in w.db.info))
    && (Seizes(w'.threads[t], k) ==> Seizes(w.threads[t], k) || Seized(w'.db, k))
  }

  lemma NextSeizes(w: World, t: ThreadId, m: Move, k: Key)
    requires Enabled(w, Act(t, m)) && MarkedMove(w, Apply(w, Act(t, m)), t, m)
    requires t in Apply(w, Act(t, m)).threads && Seizes(Apply(w, Act(t, m)).threads[t], k)
    ensures Seizes(w.threads[t], k) || Seized(Apply(w, Act(t, m)).db, k)
  {
    var th, w' := w.threads[t], Apply(w, Act(t, m));
    var next := w'.threads[t];
    if PastMark(next, k) { assert PursuitGoesOn(w.db, th, w'.db, next, k); }
    else if next.RecoveringOne? && next.job.key == k { NextRecovers(w.db, t, th, m, k); }
    else { QueueShrinks(th, next, k); }
  }

  lemma NextThreadAcks(w: World, t: ThreadId, m: Move)
    requires Enabled(w, Act(t, m)) && MarkedMove(w, Apply(w, Act(t, m)), t, m) && t in Apply(w, Act(t, m)).threads
    ensures forall k :: NextAcks(w, Apply(w, Act(t, m)), t, k)
  {
    var w' := Apply(w, Act(t, m));
    forall k ensures NextAcks(w, w', t, k) {
      if StillIssues(w'.threads[t], k) { NextStillIssues(w.db, t, w.threads[t], m, k); }
      if Seizes(w'.threads[t], k) { NextSeizes(w, t, m, k); }
    }
  }

  lemma MoveIsAcked(w: World, t: ThreadId, m: Move)
    requires Inv(w) && Enabled(w, Act(t, m))
    ensures AckedMove(w, Apply(w, Act(t, m)), t, m)
  {
    MoveIsMarked(w, t, m);
    MoveAcks(w.db, t, w.threads[t], m);
    if t in Apply(w, Act(t, m)).threads { NextThreadAcks(w, t, m); }
  }

  // ---------- Every move keeps it ----------

  /** The key that is asked for is no longer issued, and may be revoked. */
  lemma CalledIsSeized(w: World, t: ThreadId, k: Key)
    requires Inv(w) && KeyAccounted(w, k) && t in w.threads && Calls(w.threads[t], k)
    ensures k in w.db.closed && k in w.db.info && (k in w.db.acked || Seized(w.db, k))
  {
    assert Holds(w.db, t, w.threads[t]) && KeyOk(w.db, k);
    if w.threads[t].Compensating? || w.threads[t].RecoveringOne? { assert Seizes(w.threads[t], k); }
  }

  /** A key that its issuer gives up is in no row, and nobody is on the way to commit one. */
  lemma GivenUpIsInNoRow(w: World, t: ThreadId, k: Key)
    requires Inv(w) && t in w.threads && GivesUp(w.threads[t], k)
    ensures k in w.db.info && !InRow(w.db, k)
    ensures forall u :: u in w.threads ==> !StillIssues(w.threads[u], k)
  {
    assert Holds(w.db, t, w.threads[t]) && KeyOk(w.db, k);
    assert RowOk(w.db, w.db.info[k].slot);
    forall u | u in w.threads ensures !StillIssues(w.threads[u], k) { assert Holds(w.db, u, w.threads[u]); }
  }

  lemma IssuedIsUnclosed(w: World, u: ThreadId, k: Key)
    requires Inv(w) && u in w.threads && StillIssues(w.threads[u], k)
    ensures k !in w.db.closed
  {
    assert Holds(w.db, u, w.threads[u]);
  }

  lemma StaysSeized(w: World, w': World, t: ThreadId, m: Move, k: Key)
    requires EvenMove(w, w', t, m) && Seized(w.db, k) && InRow(w'.db, k)
    ensures Seized(w'.db, k)
  {
    KeyMoved(w, w', t, m, k);
  }

  lemma StaysSeizedOrAcked(w: World, w': World, t: ThreadId, k: Key)
    requires Guarantee(w.db, w'.db, t) && (k in w.db.acked || Seized(w.db, k))
    ensures k in w'.db.acked || Seized(w'.db, k)
  {
    assert KeyStep(w.db, w'.db, t, k);
  }

  /** A row that begins to carry the key is committed by its issuer, before anybody could revoke it. */
  lemma NewRowIsLive(w: World, w': World, t: ThreadId, m: Move, k: Key)
    requires AckedMove(w, w', t, m) && KeyAccounted(w, k) && InRow(w'.db, k) && !InRow(w.db, k)
    ensures k !in w'.db.acked
  {
    KeyMoved(w, w', t, m, k);
    assert RowOk(w'.db, w'.db.info[k].slot);
  }

  lemma RowsStaySeized(w: World, w': World, t: ThreadId, m: Move, k: Key)
    requires AckedMove(w, w', t, m) && KeyAccounted(w, k) && k in w'.db.acked && InRow(w'.db, k)
    ensures Seized(w'.db, k)
  {
    KeyMoved(w, w', t, m, k);
    if !InRow(w.db, k) { NewRowIsLive(w, w', t, m, k); } else {
      if k !in w.db.acked {
        if Calls(w.threads[t], k) { CalledIsSeized(w, t, k); } else { GivenUpIsInNoRow(w, t, k); }
      }
      StaysSeized(w, w', t, m, k);
    }
  }

  lemma IssuersStayLive(w: World, w': World, t: ThreadId, m: Move, k: Key, u: ThreadId)
    requires AckedMove(w, w', t, m) && KeyAccounted(w, k) && u in w'.threads && StillIssues(w'.threads[u], k)
    ensures k !in w'.db.acked
  {
    if u == t { assert NextAcks(w, w', t, k); } else { assert w.threads[u] == w'.threads[u]; }
    if k in w'.db.acked && k !in w.db.acked {
      if Calls(w.threads[t], k) {
        CalledIsSeized(w, t, k);
        if u in w.threads && StillIssues(w.threads[u], k) { IssuedIsUnclosed(w, u, k); }
      } else {
        GivenUpIsInNoRow(w, t, k);
      }
    }
  }

  lemma MoveKeepsAccounted(w: World, w': World, t: ThreadId, m: Move, k: Key)
    requires AckedMove(w, w', t, m) && KeyAccounted(w, k)
    ensures KeyAccounted(w', k)
  {
    assert KeyStep(w.db, w'.db, t, k);
    if k in w'.db.acked && k !in w.db.acked {
      if Calls(w.threads[t], k) { CalledIsSeized(w, t, k); } else { GivenUpIsInNoRow(w, t, k); }
    }
    if k in w'.db.acked && InRow(w'.db, k) { RowsStaySeized(w, w', t, m, k); }
    forall u | u in w'.threads && StillIssues(w'.threads[u], k) ensures k !in w'.db.acked { IssuersStayLive(w, w', t, m, k, u); }
    forall u | u in w'.threads && Seizes(w'.threads[u], k) ensures k in w'.db.acked || Seized(w'.db, k) {
      if u == t { assert NextAcks(w, w', t, k); } else { assert w.threads[u] == w'.threads[u]; }
      if k in w.db.acked || Seized(w.db, k) { StaysSeizedOrAcked(w, w', t, k); }
    }
  }

  // ---------- Requests and events ----------

  /** What a new request claims as ready is ready. */
  ghost predicate ClaimsWell(w: World, w': World, t: ThreadId) {
    t !in w.threads && t in w'.threads ==> forall k :: Seizes(w'.threads[t], k) ==> IsReady(w'.db, k)
  }

  lemma BeginClaimsWell(w: World, t: ThreadId, r: Request)
    requires Enabled(w, Begin(t, r))
    ensures ClaimsWell(w, Apply(w, Begin(t, r)), t)
  {
    if r.RetryPending? {
      assert Apply(w, Begin(t, r)).threads[t].queue == Snapshot(w.db.intents, r.keys);
    }
  }

  lemma CalmKeepsAccounted(w: World, w': World, t: ThreadId, k: Key)
    requires CalmStep(w, w', t) && ClaimsWell(w, w', t) && KeyAccounted(w, k)
    ensures KeyAccounted(w', k)
  {
    assert KeyOk(w.db, k) && KeyOk(w'.db, k) && KeyStep(w.db, w'.db, t, k);
    if k in w'.db.acked && InRow(w'.db, k) && !InRow(w.db, k) {
      assert RowOk(w'.db, w'.db.info[k].slot);
      NotInRowAfter(w.db, w'.db, t, k);
    }
    forall u | u in w'.threads && u in w.threads ensures w'.threads[u] == w.threads[u] { }
  }

  lemma StepKeepsAccounted(w: World, a: Action)
    requires Inv(w) && AllAccounted(w) && Enabled(w, a)
    ensures AllAccounted(Apply(w, a))
  {
    var w' := Apply(w, a);
    match a
    case Happen(e) =>
      HappenIsCalm(w, e, 0);
      forall k ensures KeyAccounted(w', k) { assert KeyAccounted(w, k); CalmKeepsAccounted(w, w', 0, k); }
    case Begin(t, r) =>
      BeginIsCalm(w, t, r);
      BeginClaimsWell(w, t, r);
      forall k ensures KeyAccounted(w', k) { assert KeyAccounted(w, k); CalmKeepsAccounted(w, w', t, k); }
    case Act(t, m) =>
      MoveIsAcked(w, t, m);
      forall k ensures KeyAccounted(w', k) { assert KeyAccounted(w, k); MoveKeepsAccounted(w, w', t, m, k); }
  }

  lemma {:induction false} RunKeepsAccounted(w: World, actions: seq<Action>)
    requires Inv(w) && AllAccounted(w) && Runs(w, actions)
    ensures AllAccounted(Final(w, actions))
    decreases |actions|
  {
    if |actions| > 0 {
      StepKeepsInv(w, actions[0]);
      StepKeepsAccounted(w, actions[0]);
      RunKeepsAccounted(Apply(w, actions[0]), actions[1..]);
    }
  }

  /** In every run whatever: a revoked key that is still in its row is under a ready intent, or its mark found none. */
  lemma RevokedKeyInItsRow(actions: seq<Action>, k: Key)
    requires Runs(EMPTY_WORLD, actions)
    ensures var db := Final(EMPTY_WORLD, actions).db; k in db.acked && InRow(db, k) ==> IsReady(db, k) || k in db.unmarked
  {
    EmptyWorldInv();
    RunKeepsAccounted(EMPTY_WORLD, actions);
    assert KeyAccounted(Final(EMPTY_WORLD, actions), k);
  }

  lemma CommittedIsNotReady(db: Db, k: Key)
    requires k in db.info && k in db.committed && NoneCommittedPending(db, db.info[k].slot.binding)
    ensures !IsReady(db, k)
  {
  }

  /**
   In every run in which invalidations keep the row lock: a key that is delivered before it expires is live
   exactly when its visible row still carries it, unless the mark of its compensation found no intent.
   */
  lemma DeliveredKeyIsLiveExactlyInItsRow(actions: seq<Action>, a: Action, d: Delivery)
    requires Runs(EMPTY_WORLD, actions) && forall i :: 0 <= i < |actions| ==> KeepsItsLock(actions[i])
    requires Delivers(Final(EMPTY_WORLD, actions), a, d)
    ensures var db := Final(EMPTY_WORLD, actions).db;
      !Expired(db, d.key) && d.key !in db.unmarked ==> (d.key !in db.acked <==> KeptByRow(db, d.key))
  {
    var db := Final(EMPTY_WORLD, actions).db;
    EmptyWorldInv();
    DeliveryIsCurrent(actions, a, d);
    RevokedKeyInItsRow(actions, d.key);
    if !Expired(db, d.key) {
      RunKeepsInv(EMPTY_WORLD, actions);
      ConfirmationHolds(Final(EMPTY_WORLD, actions), a, d);
      assert KeyOk(db, d.key);
      CommittedIsNotReady(db, d.key);
    }
  }

}
