/**
 What ConfirmDeliverable has counted still stands when it commits, exactly unless somebody without the row lock
 stages a key or hides rows in between. While every invalidation keeps the lock, no row is pending for the binding,
 no intent of a key that ever had a row, and the delivered key is dead already or in its visible row.
 */
module SagaDelivery {
  import opened Authorization
  import opened SagaState
  import opened SagaSteps
  import opened SagaInvariant
  import opened SagaTheorems
  import opened SagaTracking
  import opened SagaLosses
  import opened SagaFairness
  import opened SagaFairRuns
  import opened SagaFences

  // ---------- Under the lock of another thread ----------

  /** No row of the binding becomes pending. */
  ghost predicate RowsQuiet(db: Db, db': Db, b: Binding) {
    forall s :: s in db'.rows && s.binding == b && db'.rows[s].pending ==> s in db.rows && db.rows[s].pending
  }

  /** No key of the binding gets an intent. */
  ghost predicate IntentsQuiet(db: Db, db': Db, b: Binding) {
    forall k :: k in db'.intents && k !in db.intents ==> k in db'.info && db'.info[k].slot.binding != b
  }

  ghost predicate QuietFor(db: Db, db': Db, b: Binding) {
    RowsQuiet(db, db', b) && IntentsQuiet(db, db', b)
  }

  /** Rows and intents are only removed. */
  ghost predicate Shrinks(db: Db, db': Db) {
    && (forall s :: s in db'.rows ==> s in db.rows && db'.rows[s] == db.rows[s])
    && (forall k :: k in db'.intents ==> k in db.intents)
  }

  lemma ShrinkingIsQuiet(db: Db, db': Db, b: Binding)
    requires Shrinks(db, db')
    ensures QuietFor(db, db', b)
  {
  }

  lemma StaysQuiet(db: Db, db': Db, t: ThreadId, b: Binding)
    requires Global(db) && Guarantee(db, db', t) && QuietFor(db, db', b)
    ensures HasPendingRow(db'.rows, b) ==> HasPendingRow(db.rows, b)
    ensures HasIntent(db', b) ==> HasIntent(db, b)
  {
    if HasIntent(db', b) {
      var k :| k in db'.intents && k in db'.info && db'.info[k].slot.binding == b;
      assert KeyOk(db, k) && KeyStep(db, db', t, k);
    }
  }

  /** A thread that stages an intent holds the row lock of the key's binding. */
  lemma StageIsQuiet(db: Db, t: ThreadId, th: Thread, id: IntentId, outcome: Outcome, b: Binding)
    requires Holds(db, t, th) && Can(db, t, th, Stage(id, outcome)) && LockedByOther(db, t, b)
    requires Invalidating(th) ==> th.cause.held
    ensures QuietFor(db, StageNext(db, th, id, outcome).db, b)
  {
  }

  /** So does a thread that hides rows. */
  lemma MarkIsQuiet(db: Db, t: ThreadId, th: Thread, outcome: Outcome, b: Binding)
    requires Holds(db, t, th) && th.Marking? && LockedByOther(db, t, b) && th.cause.held
    ensures QuietFor(db, MarkRowsIn(db, th, outcome).db, b)
  {
  }

  lemma RevokeShrinks(db: Db, j: Job, outcome: Outcome, recovery: bool)
    ensures Shrinks(db, RevokeIn(db, j, outcome, recovery))
  {
  }

  lemma EffectShrinks(db: Db, b: Binding, e: Effect)
    requires b in db.creds
    ensures Shrinks(db, Unlock(ApplyEffect(db, b, e), b))
  {
  }

  lemma ConcludeShrinks(db: Db, t: ThreadId, th: Thread, outcome: Outcome)
    requires Holds(db, t, th) && th.Concluding?
    ensures Shrinks(db, ConcludeIn(db, th, outcome).db)
  {
    if th.cause.purpose.Control? && th.cause.held && outcome != Failed && th.result != Failure {
      EffectShrinks(db, th.cause.binding, th.cause.purpose.effect);
    } else {
      ConcludesQuietly(db, th, outcome);
    }
  }

  lemma WrittenCommitIsQuiet(db: Db, slot: Slot, key: Key, id: IntentId, outcome: Outcome, b: Binding)
    ensures QuietFor(db, CommitIn(db, Written(slot, key, id), outcome).db, b)
  {
  }

  lemma ReusingCommitIsQuiet(db: Db, slot: Slot, key: Key, outcome: Outcome, b: Binding)
    ensures QuietFor(db, CommitIn(db, Reusing(slot, key), outcome).db, b)
  {
  }

  lemma CommitIsQuiet(db: Db, t: ThreadId, th: Thread, outcome: Outcome, b: Binding)
    requires Holds(db, t, th) && Can(db, t, th, Commit(outcome))
    ensures QuietFor(db, CommitIn(db, th, outcome).db, b)
  {
    match th
    case Written(slot, key, id) => WrittenCommitIsQuiet(db, slot, key, id, outcome, b);
    case Reusing(slot, key) => ReusingCommitIsQuiet(db, slot, key, outcome, b);
    case Concluding(_, _) =>
      ConcludeShrinks(db, t, th, outcome);
      ShrinkingIsQuiet(db, ConcludeIn(db, th, outcome).db, b);
    case Confirming(_, _, _) => ConfirmingIsQuiet(db, th, outcome);
  }

  lemma RevokeMoveIsQuiet(db: Db, t: ThreadId, th: Thread, outcome: Outcome, b: Binding)
    requires Can(db, t, th, Revoke(outcome))
    ensures QuietFor(db, RevokeNext(db, th, outcome).db, b)
  {
    match th
    case Compensating(job) => RevokeShrinks(db, job, outcome, false);
    case RecoveringOne(_, _, job) => RevokeShrinks(db, job, outcome, true);
    case Revoking(_, jobs, index, stage, _) => RevokeShrinks(db, jobs[index].(stage := stage), outcome, false);
  }

  lemma FinalizeShrinks(db: Db, key: Key, id: IntentId, outcome: Outcome)
    ensures Shrinks(db, FinalizeIn(db, key, id, outcome).db)
  {
  }

  lemma CondemnShrinks(db: Db, key: Key)
    requires key in db.intents
    ensures Shrinks(db, CondemnIn(db, key))
  {
  }

  lemma ResolveShrinks(db: Db, th: Thread, outcome: Outcome)
    requires th.Recovering? && |th.queue| > 0
    ensures Shrinks(db, ResolveIn(db, th, outcome).db)
  {
    if th.queue[0].key in db.intents { CondemnShrinks(db, th.queue[0].key); }
  }

  lemma ReleaseShrinks(db: Db, id: IntentId, token: Token, outcome: Outcome)
    ensures Shrinks(db, ReleasedIn(db, id, token, outcome))
  {
  }

  lemma DeleteShrinks(db: Db, th: Thread, outcome: Outcome)
    requires th.Deleting?
    ensures Shrinks(db, DeleteRowsIn(db, th, outcome).db)
  {
  }

  lemma IntentMoveShrinks(db: Db, t: ThreadId, th: Thread, m: Move)
    requires Holds(db, t, th) && Can(db, t, th, m) && (m.Finalize? || m.Resolve? || m.Release? || m.DeleteRows?)
    ensures Shrinks(db, MoveIn(db, t, th, m).db)
  {
    match m
    case Finalize(outcome) => FinalizeShrinks(db, th.key, th.id, outcome);
    case Resolve(outcome) => ResolveShrinks(db, th, outcome);
    case Release(outcome) => ReleaseShrinks(db, th.id, th.token, outcome);
    case DeleteRows(outcome) => DeleteShrinks(db, th, outcome);
  }

  lemma QuietMoveIsQuiet(db: Db, t: ThreadId, th: Thread, m: Move, b: Binding)
    requires Can(db, t, th, m) && !Writes(m) && !m.DeleteRows?
    ensures QuietFor(db, MoveIn(db, t, th, m).db, b)
  {
    RestIsQuiet(db, t, th, m);
  }

  lemma MoveIsQuiet(db: Db, t: ThreadId, th: Thread, m: Move, b: Binding)
    requires Holds(db, t, th) && Can(db, t, th, m) && LockedByOther(db, t, b)
    requires !m.StageAlone? && ((m.Stage? || m.MarkRows?) && Invalidating(th) ==> th.cause.held)
    ensures QuietFor(db, MoveIn(db, t, th, m).db, b)
  {
    if m.Stage? { StageIsQuiet(db, t, th, m.id, m.outcome, b); }
    else if m.MarkRows? { MarkIsQuiet(db, t, th, m.outcome, b); }
    else if m.Commit? { CommitIsQuiet(db, t, th, m.outcome, b); }
    else if m.Revoke? { RevokeMoveIsQuiet(db, t, th, m.outcome, b); }
    else if m.Finalize? || m.Resolve? || m.Release? || m.DeleteRows? {
      IntentMoveShrinks(db, t, th, m);
      ShrinkingIsQuiet(db, MoveIn(db, t, th, m).db, b);
    }
    else if !m.ReadArtifact? { QuietMoveIsQuiet(db, t, th, m, b); }
  }

  lemma BeginIsQuiet(db: Db, t: ThreadId, r: Request, b: Binding)
    requires CanBegin(db, t, r)
    ensures QuietFor(db, BeginIn(db, t, r).db, b)
  {
  }

  lemma HappenIsQuiet(db: Db, e: Event, b: Binding)
    requires CanHappen(db, e)
    ensures QuietFor(db, HappenTo(db, e), b)
  {
    ShrinkingIsQuiet(db, HappenTo(db, e), b);
  }

  // ---------- The counts stay zero ----------

  /** What the two counts of a confirmation found is still so. */
  ghost predicate CountsStand(db: Db, th: Thread) {
    th.Confirming? ==>
      && (th.gate == NoRowPending || th.gate == NothingPending ==> !HasPendingRow(db.rows, th.binding))
      && (th.gate == NothingPending ==> !HasIntent(db, th.binding))
  }

  ghost predicate AllCountsStand(w: World) {
    forall u :: u in w.threads ==> CountsStand(w.db, w.threads[u])
  }

  /** A confirmation for the binding has counted its rows, or its rows and its intents. */
  ghost predicate HasCounted(w: World, b: Binding, g: Gate) {
    exists u :: u in w.threads && w.threads[u].Confirming? && w.threads[u].binding == b && w.threads[u].gate == g
  }

  /** The binding of a thread that stages without the row lock: of an invalidation, or of an issuer cut off from its transaction. */
  function StagedBinding(th: Thread): Option<Binding> {
    if th.Staging? && !th.cause.held then Some(th.cause.binding)
    else if th.IssuedAlone? then Some(th.slot.binding)
    else None
  }

  /** Without the row lock a key of the binding is staged after the intents were counted. */
  ghost predicate StagesTooLate(w: World, th: Thread, m: Move) {
    && ((m.Stage? && m.outcome != Failed) || (m.StageAlone? && m.outcome != Failed))
    && StagedBinding(th).Some? && HasCounted(w, StagedBinding(th).value, NothingPending)
  }

  predicate HasRow(db: Db, b: Binding) {
    exists s :: s in db.rows && s.binding == b
  }

  /** Without the row lock the rows of the binding are hidden after a confirmation that stands at g has counted them. */
  ghost predicate HidesTooLate(w: World, th: Thread, m: Move, g: Gate) {
    && m.MarkRows? && m.outcome != Failed && th.Marking? && !th.cause.held
    && HasRow(w.db, th.cause.binding) && HasCounted(w, th.cause.binding, g)
  }

  ghost predicate Disturbs(w: World, a: Action) {
    && a.Act? && a.t in w.threads
    && var th := w.threads[a.t];
       StagesTooLate(w, th, a.move) || HidesTooLate(w, th, a.move, NoRowPending) || HidesTooLate(w, th, a.move, NothingPending)
  }

  /** The step is quiet as far as thread th has counted. */
  ghost predicate QuietSince(db: Db, db': Db, th: Thread)
    requires th.Confirming?
  {
    && (th.gate == NoRowPending || th.gate == NothingPending ==> RowsQuiet(db, db', th.binding))
    && (th.gate == NothingPending ==> IntentsQuiet(db, db', th.binding))
  }

  lemma OtherCountsStand(w: World, db': Db, t: ThreadId, u: ThreadId)
    requires Inv(w) && u in w.threads && u != t && CountsStand(w.db, w.threads[u]) && Guarantee(w.db, db', t)
    requires w.threads[u].Confirming? ==> QuietSince(w.db, db', w.threads[u])
    ensures CountsStand(db', w.threads[u])
  {
    var th := w.threads[u];
    if th.Confirming? && th.gate == NothingPending { StaysQuiet(w.db, db', t, th.binding); }
  }

  lemma LateStageIsQuiet(w: World, t: ThreadId, m: Move, u: ThreadId)
    requires Inv(w) && Enabled(w, Act(t, m)) && w.threads[t].Staging? && m.Stage? && !StagesTooLate(w, w.threads[t], m)
    requires !w.threads[t].cause.held && u in w.threads && w.threads[u].Confirming?
    ensures QuietSince(w.db, MoveIn(w.db, t, w.threads[t], m).db, w.threads[u])
  {
    assert Holds(w.db, t, w.threads[t]);
  }

  lemma LoneStageTouches(db: Db, t: ThreadId, s: Slot, key: Key, id: IntentId, outcome: Outcome, b: Binding)
    requires Holds(db, t, IssuedAlone(s, key))
    ensures var db' := StageAloneIn(db, key, id, outcome).db;
      RowsQuiet(db, db', b) && (outcome == Failed || s.binding != b ==> IntentsQuiet(db, db', b))
  {
  }

  lemma LoneStageIsQuiet(w: World, t: ThreadId, m: Move, u: ThreadId)
    requires Inv(w) && Enabled(w, Act(t, m)) && m.StageAlone? && !StagesTooLate(w, w.threads[t], m)
    requires u in w.threads && w.threads[u].Confirming?
    ensures QuietSince(w.db, StageAloneIn(w.db, w.threads[t].key, m.id, m.outcome).db, w.threads[u])
  {
    assert Holds(w.db, t, w.threads[t]);
    LoneStageTouches(w.db, t, w.threads[t].slot, w.threads[t].key, m.id, m.outcome, w.threads[u].binding);
  }

  lemma LateMarkIsQuiet(w: World, t: ThreadId, m: Move, u: ThreadId)
    requires Inv(w) && Enabled(w, Act(t, m)) && m.MarkRows? && !w.threads[t].cause.held
    requires u in w.threads && w.threads[u].Confirming? && !HidesTooLate(w, w.threads[t], m, w.threads[u].gate)
    ensures QuietSince(w.db, MoveIn(w.db, t, w.threads[t], m).db, w.threads[u])
  {
  }

  lemma LoneMoveIsQuietSince(w: World, t: ThreadId, m: Move, u: ThreadId)
    requires Inv(w) && Enabled(w, Act(t, m)) && u in w.threads && u != t && w.threads[u].Confirming?
    requires !StagesTooLate(w, w.threads[t], m) && !HidesTooLate(w, w.threads[t], m, w.threads[u].gate)
    requires m.StageAlone? || ((m.Stage? || m.MarkRows?) && Invalidating(w.threads[t]) && !w.threads[t].cause.held)
    ensures QuietSince(w.db, MoveIn(w.db, t, w.threads[t], m).db, w.threads[u])
  {
    if m.StageAlone? { LoneStageIsQuiet(w, t, m, u); }
    else if m.Stage? { LateStageIsQuiet(w, t, m, u); }
    else { LateMarkIsQuiet(w, t, m, u); }
  }

  lemma MoveIsQuietSince(w: World, t: ThreadId, m: Move, u: ThreadId)
    requires Inv(w) && Enabled(w, Act(t, m)) && u in w.threads && u != t && w.threads[u].Confirming?
    requires !StagesTooLate(w, w.threads[t], m) && !HidesTooLate(w, w.threads[t], m, w.threads[u].gate)
    ensures QuietSince(w.db, MoveIn(w.db, t, w.threads[t], m).db, w.threads[u])
  {
    var th := w.threads[t];
    if m.StageAlone? || ((m.Stage? || m.MarkRows?) && Invalidating(th) && !th.cause.held) { LoneMoveIsQuietSince(w, t, m, u); } else {
      assert Holds(w.db, t, th) && Holds(w.db, u, w.threads[u]);
      MoveIsQuiet(w.db, t, th, m, w.threads[u].binding);
    }
  }

  lemma OwnCountsStand(db: Db, t: ThreadId, th: Thread, m: Move)
    requires Can(db, t, th, m) && CountsStand(db, th) && MoveIn(db, t, th, m).thread.Some?
    ensures CountsStand(MoveIn(db, t, th, m).db, MoveIn(db, t, th, m).thread.value)
  {
    if m.PassGate? {
      assert MoveIn(db, t, th, m) == After(db, Some(th.(gate := NextGate(th.gate))));
    } else {
      OnlyGatesConfirm(db, t, th, m);
    }
  }

  lemma LateMovesConfirmNothing(db: Db, t: ThreadId, th: Thread, m: Move)
    requires Can(db, t, th, m) && (m.Commit? || m.Revoke? || m.Stage? || m.Resolve? || m.Finalize?) && MoveIn(db, t, th, m).thread.Some?
    ensures !MoveIn(db, t, th, m).thread.value.Confirming?
  {
    match m
    case Commit(_) =>
    case Revoke(_) =>
    case Stage(_, _) =>
    case Resolve(_) =>
    case Finalize(_) =>
  }

  lemma OnlyGatesConfirm(db: Db, t: ThreadId, th: Thread, m: Move)
    requires Can(db, t, th, m) && MoveIn(db, t, th, m).thread.Some? && !m.PassGate?
    ensures !MoveIn(db, t, th, m).thread.value.Confirming?
  {
    if m.Commit? || m.Revoke? || m.Stage? || m.Resolve? || m.Finalize? { LateMovesConfirmNothing(db, t, th, m); }
  }

  lemma MoveKeepsCounts(w: World, t: ThreadId, m: Move)
    requires Inv(w) && AllCountsStand(w) && Enabled(w, Act(t, m)) && !Disturbs(w, Act(t, m))
    ensures AllCountsStand(Apply(w, Act(t, m)))
  {
    var after := MoveIn(w.db, t, w.threads[t], m);
    if after.thread.Some? { OwnCountsStand(w.db, t, w.threads[t], m); }
    forall u | u in w.threads && u != t ensures CountsStand(after.db, w.threads[u]) { MoveKeepsOtherCounts(w, t, m, u); }
  }

  lemma MoveKeepsOtherCounts(w: World, t: ThreadId, m: Move, u: ThreadId)
    requires Inv(w) && Enabled(w, Act(t, m)) && u in w.threads && u != t && CountsStand(w.db, w.threads[u])
    requires !StagesTooLate(w, w.threads[t], m)
    requires w.threads[u].Confirming? && (w.threads[u].gate == NoRowPending || w.threads[u].gate == NothingPending) ==>
      !HidesTooLate(w, w.threads[t], m, w.threads[u].gate)
    ensures CountsStand(MoveIn(w.db, t, w.threads[t], m).db, w.threads[u])
  {
    StepKeepsInv(w, Act(t, m));
    var th := w.threads[u];
    if th.Confirming? && (th.gate == NoRowPending || th.gate == NothingPending) {
      MoveIsQuietSince(w, t, m, u);
      OtherCountsStand(w, MoveIn(w.db, t, w.threads[t], m).db, t, u);
    }
  }

  lemma BeginKeepsCount(w: World, t: ThreadId, r: Request, u: ThreadId)
    requires Inv(w) && Enabled(w, Begin(t, r)) && u in w.threads && CountsStand(w.db, w.threads[u])
    ensures CountsStand(BeginIn(w.db, t, r).db, w.threads[u])
  {
    StepKeepsInv(w, Begin(t, r));
    if w.threads[u].Confirming? { BeginIsQuiet(w.db, t, r, w.threads[u].binding); }
    OtherCountsStand(w, BeginIn(w.db, t, r).db, t, u);
  }

  lemma HappenKeepsCount(w: World, e: Event, u: ThreadId)
    requires Inv(w) && Enabled(w, Happen(e)) && u in w.threads && CountsStand(w.db, w.threads[u])
    ensures CountsStand(HappenTo(w.db, e), w.threads[u])
  {
    HappenSound(w.db, u + 1, e);
    if w.threads[u].Confirming? { HappenIsQuiet(w.db, e, w.threads[u].binding); }
    OtherCountsStand(w, HappenTo(w.db, e), u + 1, u);
  }

  lemma StepKeepsCounts(w: World, a: Action)
    requires Inv(w) && AllCountsStand(w) && Enabled(w, a) && !Disturbs(w, a)
    ensures AllCountsStand(Apply(w, a))
  {
    match a
    case Happen(e) => forall u | u in w.threads ensures CountsStand(HappenTo(w.db, e), w.threads[u]) { HappenKeepsCount(w, e, u); }
    case Begin(t, r) => forall u | u in w.threads ensures CountsStand(BeginIn(w.db, t, r).db, w.threads[u]) { BeginKeepsCount(w, t, r, u); }
    case Act(t, m) => MoveKeepsCounts(w, t, m);
  }

  lemma StageShows(db: Db, th: Thread, id: IntentId, outcome: Outcome)
    requires th.Staging? && |th.jobs| < |th.listed| && outcome != Failed && th.listed[|th.jobs|] in db.info
    ensures HasIntent(StageNext(db, th, id, outcome).db, db.info[th.listed[|th.jobs|]].slot.binding)
  {
    assert th.listed[|th.jobs|] in StageNext(db, th, id, outcome).db.intents;
  }

  lemma LoneStageShows(db: Db, key: Key, id: IntentId, outcome: Outcome)
    requires outcome != Failed && key in db.info
    ensures HasIntent(StageAloneIn(db, key, id, outcome).db, db.info[key].slot.binding)
  {
    assert key in StageAloneIn(db, key, id, outcome).db.intents;
  }

  /** A late stage leaves an intent of the binding behind. */
  lemma LateStageShows(w: World, t: ThreadId, m: Move)
    requires Inv(w) && Enabled(w, Act(t, m)) && StagesTooLate(w, w.threads[t], m)
    ensures HasIntent(Apply(w, Act(t, m)).db, StagedBinding(w.threads[t]).value)
  {
    assert Holds(w.db, t, w.threads[t]);
    if m.Stage? { StageShows(w.db, w.threads[t], m.id, m.outcome); } else { LoneStageShows(w.db, w.threads[t].key, m.id, m.outcome); }
  }

  lemma MarkShows(db: Db, th: Thread, outcome: Outcome)
    requires th.Marking? && outcome != Failed && HasRow(db, th.cause.binding)
    ensures HasPendingRow(MarkRowsIn(db, th, outcome).db.rows, th.cause.binding)
  {
    var s :| s in db.rows && s.binding == th.cause.binding;
    assert MarkRowsIn(db, th, outcome).db.rows[s].pending;
  }

  lemma StillCounted(w: World, t: ThreadId, m: Move, b: Binding, g: Gate)
    requires Enabled(w, Act(t, m)) && !w.threads[t].Confirming? && HasCounted(w, b, g)
    ensures HasCounted(Apply(w, Act(t, m)), b, g)
  {
    var u :| u in w.threads && w.threads[u].Confirming? && w.threads[u].binding == b && w.threads[u].gate == g;
    var w' := Apply(w, Act(t, m));
    assert u in w'.threads && w'.threads[u] == w.threads[u];
  }

  lemma CountsFall(w: World, b: Binding, g: Gate)
    requires HasCounted(w, b, g) && (g == NoRowPending || g == NothingPending)
    requires HasPendingRow(w.db.rows, b) || (g == NothingPending && HasIntent(w.db, b))
    ensures !AllCountsStand(w)
  {
    var u :| u in w.threads && w.threads[u].Confirming? && w.threads[u].binding == b && w.threads[u].gate == g;
    assert !CountsStand(w.db, w.threads[u]);
  }

  lemma LateStageDisturbs(w: World, t: ThreadId, m: Move)
    requires Inv(w) && Enabled(w, Act(t, m)) && StagesTooLate(w, w.threads[t], m)
    ensures !AllCountsStand(Apply(w, Act(t, m)))
  {
    LateStageShows(w, t, m);
    StillCounted(w, t, m, StagedBinding(w.threads[t]).value, NothingPending);
    CountsFall(Apply(w, Act(t, m)), StagedBinding(w.threads[t]).value, NothingPending);
  }

  lemma LateMarkDisturbs(w: World, t: ThreadId, m: Move, g: Gate)
    requires Enabled(w, Act(t, m)) && HidesTooLate(w, w.threads[t], m, g) && (g == NoRowPending || g == NothingPending)
    ensures !AllCountsStand(Apply(w, Act(t, m)))
  {
    MarkShows(w.db, w.threads[t], m.outcome);
    StillCounted(w, t, m, w.threads[t].cause.binding, g);
    CountsFall(Apply(w, Act(t, m)), w.threads[t].cause.binding, g);
  }

  /**
   The counts of every confirmation stand after a step exactly when the step is no late statement of an
   invalidation that has not got the row lock, nor the late staging of an issuer that has lost it.
   */
  lemma CountsStandExactly(w: World, a: Action)
    requires Inv(w) && AllCountsStand(w) && Enabled(w, a)
    ensures AllCountsStand(Apply(w, a)) <==> !Disturbs(w, a)
  {
    if !Disturbs(w, a) { StepKeepsCounts(w, a); }
    else if StagesTooLate(w, w.threads[a.t], a.move) { LateStageDisturbs(w, a.t, a.move); }
    else if HidesTooLate(w, w.threads[a.t], a.move, NoRowPending) { LateMarkDisturbs(w, a.t, a.move, NoRowPending); }
    else { LateMarkDisturbs(w, a.t, a.move, NothingPending); }
  }

  // ---------- Deliveries of locked runs ----------

  /** No key of the binding whose row was ever committed has an intent. */
  ghost predicate NoneCommittedPending(db: Db, b: Binding) {
    forall k :: k in db.intents && k in db.info && db.info[k].slot.binding == b ==> k !in db.committed
  }

  /** What the counts found is still so, apart from keys that their issuers staged after they were cut off. */
  ghost predicate CountsHold(db: Db, th: Thread) {
    th.Confirming? ==>
      && (th.gate == NoRowPending || th.gate == NothingPending ==> !HasPendingRow(db.rows, th.binding))
      && (th.gate == NothingPending ==> NoneCommittedPending(db, th.binding))
  }

  ghost predicate AllCountsHold(w: World) {
    forall u :: u in w.threads ==> CountsHold(w.db, w.threads[u])
  }

  /** No committed key of the binding gets an intent. */
  ghost predicate CommittedQuiet(db: Db, db': Db, b: Binding) {
    forall k :: k in db'.intents && k !in db.intents ==>
      k in db'.info && (db'.info[k].slot.binding != b || k !in db'.committed)
  }

  /** Under the row lock of another thread no row of the binding is committed either. */
  lemma StaysUncommitted(db: Db, db': Db, t: ThreadId, b: Binding)
    requires Global(db) && Guarantee(db, db', t) && CommittedQuiet(db, db', b) && LockedByOther(db, t, b)
    requires NoneCommittedPending(db, b)
    ensures NoneCommittedPending(db', b)
  {
    forall k | k in db'.intents && k in db'.info && db'.info[k].slot.binding == b ensures k !in db'.committed {
      assert KeyOk(db, k) && KeyStep(db, db', t, k);
    }
  }

  lemma OtherCountsHold(w: World, db': Db, t: ThreadId, u: ThreadId)
    requires Inv(w) && u in w.threads && u != t && CountsHold(w.db, w.threads[u]) && Guarantee(w.db, db', t)
    requires w.threads[u].Confirming? ==>
      RowsQuiet(w.db, db', w.threads[u].binding) && CommittedQuiet(w.db, db', w.threads[u].binding)
    ensures CountsHold(db', w.threads[u])
  {
    var th := w.threads[u];
    assert Holds(w.db, u, th);
    if th.Confirming? && th.gate == NothingPending { StaysUncommitted(w.db, db', t, th.binding); }
  }

  lemma LoneStageIsUncommitted(db: Db, t: ThreadId, th: Thread, id: IntentId, outcome: Outcome, b: Binding)
    requires Global(db) && Holds(db, t, th) && th.IssuedAlone?
    ensures var db' := StageAloneIn(db, th.key, id, outcome).db; RowsQuiet(db, db', b) && CommittedQuiet(db, db', b)
  {
    assert KeyOk(db, th.key);
  }

  lemma OwnCountsHold(db: Db, t: ThreadId, th: Thread, m: Move)
    requires Global(db) && Can(db, t, th, m) && CountsHold(db, th) && MoveIn(db, t, th, m).thread.Some?
    ensures CountsHold(MoveIn(db, t, th, m).db, MoveIn(db, t, th, m).thread.value)
  {
    if m.PassGate? {
      assert MoveIn(db, t, th, m) == After(db, Some(th.(gate := NextGate(th.gate))));
    } else {
      OnlyGatesConfirm(db, t, th, m);
    }
  }

  lemma MoveHoldsOtherCounts(w: World, t: ThreadId, m: Move, u: ThreadId)
    requires Inv(w) && AllHeld(w) && Enabled(w, Act(t, m)) && u in w.threads && u != t && CountsHold(w.db, w.threads[u])
    ensures CountsHold(MoveIn(w.db, t, w.threads[t], m).db, w.threads[u])
  {
    StepKeepsInv(w, Act(t, m));
    var th := w.threads[t];
    assert Holds(w.db, t, th) && Holds(w.db, u, w.threads[u]);
    if w.threads[u].Confirming? {
      if m.StageAlone? { LoneStageIsUncommitted(w.db, t, th, m.id, m.outcome, w.threads[u].binding); }
      else { MoveIsQuiet(w.db, t, th, m, w.threads[u].binding); }
    }
    OtherCountsHold(w, MoveIn(w.db, t, th, m).db, t, u);
  }

  lemma MoveHoldsCounts(w: World, t: ThreadId, m: Move)
    requires Inv(w) && AllHeld(w) && AllCountsHold(w) && Enabled(w, Act(t, m))
    ensures AllCountsHold(Apply(w, Act(t, m)))
  {
    var after := MoveIn(w.db, t, w.threads[t], m);
    if after.thread.Some? { OwnCountsHold(w.db, t, w.threads[t], m); }
    forall u | u in w.threads && u != t ensures CountsHold(after.db, w.threads[u]) { MoveHoldsOtherCounts(w, t, m, u); }
  }

  lemma BeginHoldsCount(w: World, t: ThreadId, r: Request, u: ThreadId)
    requires Inv(w) && Enabled(w, Begin(t, r)) && u in w.threads && CountsHold(w.db, w.threads[u])
    ensures CountsHold(BeginIn(w.db, t, r).db, w.threads[u])
  {
    BeginKeepsInv(w, t, r);
    if w.threads[u].Confirming? { BeginIsQuiet(w.db, t, r, w.threads[u].binding); }
    OtherCountsHold(w, BeginIn(w.db, t, r).db, t, u);
  }

  lemma HappenHoldsCount(w: World, e: Event, u: ThreadId)
    requires Inv(w) && Enabled(w, Happen(e)) && u in w.threads && CountsHold(w.db, w.threads[u])
    ensures CountsHold(HappenTo(w.db, e), w.threads[u])
  {
    HappenSound(w.db, u + 1, e);
    if w.threads[u].Confirming? { HappenIsQuiet(w.db, e, w.threads[u].binding); }
    OtherCountsHold(w, HappenTo(w.db, e), u + 1, u);
  }

  lemma BegunCounts(w: World, t: ThreadId, after: After)
    requires t !in w.threads && (forall u :: u in w.threads ==> CountsHold(after.db, w.threads[u]))
    requires after.thread.Some? && CountsHold(after.db, after.thread.value)
    ensures AllCountsHold(World(after.db, Put(w.threads, t, after.thread)))
  {
  }

  lemma StepHoldsCounts(w: World, a: Action)
    requires Inv(w) && AllHeld(w) && AllCountsHold(w) && Enabled(w, a)
    ensures AllCountsHold(Apply(w, a))
  {
    match a
    case Happen(e) => forall u | u in w.threads ensures CountsHold(HappenTo(w.db, e), w.threads[u]) { HappenHoldsCount(w, e, u); }
    case Begin(t, r) =>
      forall u | u in w.threads ensures CountsHold(BeginIn(w.db, t, r).db, w.threads[u]) { BeginHoldsCount(w, t, r, u); }
      BegunCounts(w, t, BeginIn(w.db, t, r));
    case Act(t, m) => MoveHoldsCounts(w, t, m);
  }

  /** Everything proved of runs in which invalidations keep the row lock. */
  ghost predicate UnderLock(w: World) {
    Inv(w) && AllHeld(w) && AllTracked(w) && AllFair(w) && AllCountsHold(w)
  }

  lemma StepKeepsLocked(w: World, a: Action)
    requires UnderLock(w) && Enabled(w, a) && KeepsItsLock(a)
    ensures UnderLock(Apply(w, a))
  {
    StepKeepsInv(w, a);
    StepKeepsHeld(w, a);
    LockedStepIsCareful(w, a);
    StepKeepsTracked(w, a);
    LockedStepIsFair(w, a);
    StepKeepsFair(w, a);
    StepHoldsCounts(w, a);
  }

  lemma {:induction false} RunKeepsLocked(w: World, actions: seq<Action>)
    requires UnderLock(w) && Runs(w, actions) && forall i :: 0 <= i < |actions| ==> KeepsItsLock(actions[i])
    ensures UnderLock(Final(w, actions))
    decreases |actions|
  {
    if |actions| > 0 {
      StepKeepsLocked(w, actions[0]);
      RunKeepsLocked(Apply(w, actions[0]), actions[1..]);
    }
  }

  /** No revocation of the key is under way or still to come: it is over, or the key is in its visible row. */
  ghost predicate DeadOrCurrent(db: Db, k: Key) {
    k in db.acked || Expired(db, k) || (KeptByRow(db, k) && !Condemned(db, k) && k !in db.intents)
  }

  lemma DeliveredIsDeadOrCurrent(w: World, a: Action, d: Delivery)
    requires UnderLock(w) && Delivers(w, a, d)
    ensures !HasPendingRow(w.db.rows, w.threads[a.t].binding) && NoneCommittedPending(w.db, w.threads[a.t].binding)
    ensures DeadOrCurrent(w.db, d.key)
  {
    assert Holds(w.db, a.t, w.threads[a.t]) && CountsHold(w.db, w.threads[a.t]);
    assert KeyOk(w.db, d.key) && KeyTracked(w, d.key) && KeyFair(w, d.key);
  }

  ghost predicate CurrentDelivery(db: Db, d: Delivery) {
    && d.key in db.info
    && var b := db.info[d.key].slot.binding;
       && !HasPendingRow(db.rows, b) && NoneCommittedPending(db, b)
       && Clears(d.versions, FenceOf(db, b, d.consumer))
       && b in db.creds && db.creds[b] == Credential(d.versions.generation, true)
       && DeadOrCurrent(db, d.key)
  }

  lemma LockedDeliveryIsCurrent(w: World, a: Action, d: Delivery)
    requires UnderLock(w) && Delivers(w, a, d)
    ensures CurrentDelivery(w.db, d)
  {
    ConfirmationHolds(w, a, d);
    assert Holds(w.db, a.t, w.threads[a.t]);
    DeliveredIsDeadOrCurrent(w, a, d);
  }

  /**
   In every run in which invalidations keep the row lock: when a key is delivered, no row of its binding is
   pending and no intent of a key that ever had a row, the ticket clears the fence and the generation in force,
   and the key is either dead already or the key of its visible row, staged by no invalidation and taken by no
   recovery.
   */
  lemma DeliveryIsCurrent(actions: seq<Action>, a: Action, d: Delivery)
    requires Runs(EMPTY_WORLD, actions) && forall i :: 0 <= i < |actions| ==> KeepsItsLock(actions[i])
    requires Delivers(Final(EMPTY_WORLD, actions), a, d)
    ensures CurrentDelivery(Final(EMPTY_WORLD, actions).db, d)
  {
    EmptyWorldInv();
    RunKeepsLocked(EMPTY_WORLD, actions);
    LockedDeliveryIsCurrent(Final(EMPTY_WORLD, actions), a, d);
  }

}
