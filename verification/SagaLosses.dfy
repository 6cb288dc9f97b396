/** When a run of the saga can lose a key: never under the row lock, and otherwise exactly after a careless delete. */
module SagaLosses {
  import opened SagaState
  import opened SagaSteps
  import opened SagaInvariant
  import opened SagaTheorems
  import opened SagaTracking

  // ---------- Invalidations that keep the row lock ----------

  /** No invalidation starts without the row lock, and none loses its transaction on the way. */
  predicate KeepsItsLock(a: Action) {
    !(a.Begin? && a.request.InvalidateUnlocked?) && !(a.Act? && a.move.LoseTransaction?)
  }

  ghost predicate AllHeld(w: World) {
    forall t :: t in w.threads && Invalidating(w.threads[t]) ==> w.threads[t].cause.held
  }

  lemma RevokeKeepsHeld(db: Db, th: Thread, outcome: Outcome)
    requires th.Compensating? || th.RecoveringOne? || (th.Revoking? && th.index < |th.jobs|)
    requires Invalidating(th) ==> th.cause.held
    ensures var next := RevokeNext(db, th, outcome).thread; next.Some? && Invalidating(next.value) ==> next.value.cause.held
  {
  }

  lemma LonersHoldNothing(db: Db, t: ThreadId, th: Thread, m: Move)
    requires Alone(m) && Can(db, t, th, m)
    ensures var next := AloneIn(db, t, th, m).thread; next.Some? ==> !Invalidating(next.value)
  {
  }

  lemma LookKeepsHeld(db: Db, t: ThreadId, th: Thread, m: Move)
    requires Can(db, t, th, m) && Looks(m) && (Invalidating(th) ==> th.cause.held)
    ensures var next := MoveIn(db, t, th, m).thread; next.Some? && Invalidating(next.value) ==> next.value.cause.held
  {
  }

  lemma MoveKeepsHeld(db: Db, t: ThreadId, th: Thread, m: Move)
    requires Can(db, t, th, m) && !m.LoseTransaction? && (Invalidating(th) ==> th.cause.held)
    ensures var next := MoveIn(db, t, th, m).thread; next.Some? && Invalidating(next.value) ==> next.value.cause.held
  {
    if Looks(m) { LookKeepsHeld(db, t, th, m); }
    else if m.Revoke? { RevokeKeepsHeld(db, th, m.outcome); }
    else if Alone(m) { LonersHoldNothing(db, t, th, m); }
  }

  lemma StepKeepsHeld(w: World, a: Action)
    requires AllHeld(w) && Enabled(w, a) && KeepsItsLock(a)
    ensures AllHeld(Apply(w, a))
  {
    if a.Act? { MoveKeepsHeld(w.db, a.t, w.threads[a.t], a.move); }
  }

  /** Under the row lock the listed keys are all there is, and the delete runs when all of them are acknowledged. */
  lemma LockedStepIsCareful(w: World, a: Action)
    requires Inv(w) && AllHeld(w) && Enabled(w, a)
    ensures Careful(w, a)
  {
    if a.Act? && a.move.DeleteRows? {
      assert Holds(w.db, a.t, w.threads[a.t]);
    }
  }

  lemma {:induction false} LockedRunIsCareful(w: World, actions: seq<Action>)
    requires Inv(w) && AllHeld(w) && Runs(w, actions) && forall i :: 0 <= i < |actions| ==> KeepsItsLock(actions[i])
    ensures AllCareful(w, actions) && AllHeld(Final(w, actions))
    decreases |actions|
  {
    if |actions| > 0 {
      StepKeepsInv(w, actions[0]);
      LockedStepIsCareful(w, actions[0]);
      StepKeepsHeld(w, actions[0]);
      LockedRunIsCareful(Apply(w, actions[0]), actions[1..]);
    }
  }

  /** With every invalidation under the row lock, no interleaving and no crash loses a staged key. */
  lemma NoOrphanUnderRowLock(actions: seq<Action>)
    requires Runs(EMPTY_WORLD, actions) && forall i :: 0 <= i < |actions| ==> KeepsItsLock(actions[i])
    ensures NoOrphan(Final(EMPTY_WORLD, actions).db)
  {
    EmptyWorldInv();
    LockedRunIsCareful(EMPTY_WORLD, actions);
    NoOrphanedKey(actions);
  }

  // ---------- Exactly the careless deletes lose keys ----------

  /** However the run goes on with careful deletes, no staged key is lost. */
  ghost predicate NeverLoses(w: World) {
    forall rest :: Runs(w, rest) && AllCareful(w, rest) ==> NoOrphan(Final(w, rest).db)
  }

  /** The provisional intent the row was dropped under goes with the next statement of the issuer. */
  lemma FinalizeLoses(w: World, u: ThreadId, k: Key)
    requires Inv(w) && u in w.threads && w.threads[u].Finalizing? && w.threads[u].key == k
    requires k in w.db.intents && !Safe(w.db, k)
    ensures Runs(w, [Act(u, Finalize(Done))]) && AllCareful(w, [Act(u, Finalize(Done))])
    ensures !NoOrphan(Final(w, [Act(u, Finalize(Done))]).db)
  {
    var db, a := w.db, Act(u, Finalize(Done));
    assert Holds(db, u, w.threads[u]) && KeyOk(db, k);
    forall j | j in db.intents && db.intents[j].id == w.threads[u].id ensures j == k { assert KeyOk(db, j); }
    assert !FinalizeRefused(db.intents, w.threads[u].id);
    var w' := Apply(w, a);
    assert k in w'.db.staged && !Tracked(w'.db, k);
    assert [a][1..] == [];
    assert Final(w, [a]) == w';
  }

  lemma OrphanLoses(w: World, k: Key)
    requires k in w.db.staged && !Tracked(w.db, k)
    ensures !NeverLoses(w)
  {
    assert Runs(w, []) && AllCareful(w, []) && !NoOrphan(Final(w, []).db);
  }

  /** The row the delete must not have met: afterwards its key is live and nothing final leads to it. */
  lemma CarelessRow(w: World, t: ThreadId, outcome: Outcome, s: Slot)
    requires Inv(w) && Enabled(w, Act(t, DeleteRows(outcome))) && outcome != Failed
    requires s in w.db.rows && s.binding == w.threads[t].cause.binding && !MayLoseRow(w, w.db.rows[s].key)
    ensures var db' := Apply(w, Act(t, DeleteRows(outcome))).db;
      db' == w.db.(rows := db'.rows) && w.db.rows[s].key in db'.staged && !Safe(db', w.db.rows[s].key)
  {
    assert RowOk(w.db, s) && KeyOk(w.db, w.db.rows[s].key);
  }

  lemma UnsafeKeyLoses(w: World, k: Key)
    requires Inv(w) && k in w.db.staged && !Safe(w.db, k) && (k in w.db.intents ==> BeingFinalized(w, k))
    ensures !NeverLoses(w)
  {
    if k in w.db.intents {
      var u :| u in w.threads && w.threads[u].Finalizing? && w.threads[u].key == k;
      FinalizeLoses(w, u, k);
    } else {
      OrphanLoses(w, k);
    }
  }

  lemma FinalizersStay(w: World, t: ThreadId, outcome: Outcome, k: Key)
    requires Enabled(w, Act(t, DeleteRows(outcome))) && BeingFinalized(w, k)
    ensures BeingFinalized(Apply(w, Act(t, DeleteRows(outcome))), k)
  {
    var u :| u in w.threads && w.threads[u].Finalizing? && w.threads[u].key == k;
    var w' := Apply(w, Act(t, DeleteRows(outcome)));
    assert u in w'.threads && w'.threads[u] == w.threads[u];
  }

  lemma CarelessDeleteLoses(w: World, t: ThreadId, outcome: Outcome)
    requires Inv(w) && Enabled(w, Act(t, DeleteRows(outcome))) && !Careful(w, Act(t, DeleteRows(outcome)))
    ensures !NeverLoses(Apply(w, Act(t, DeleteRows(outcome))))
  {
    var s :| s in w.db.rows && s.binding == w.threads[t].cause.binding && !MayLoseRow(w, w.db.rows[s].key);
    var k := w.db.rows[s].key;
    StepKeepsInv(w, Act(t, DeleteRows(outcome)));
    CarelessRow(w, t, outcome, s);
    if k in w.db.intents { FinalizersStay(w, t, outcome, k); }
    UnsafeKeyLoses(Apply(w, Act(t, DeleteRows(outcome))), k);
  }

  lemma TrackedNeverLoses(w: World)
    requires Inv(w) && AllTracked(w)
    ensures NeverLoses(w)
  {
    forall rest | Runs(w, rest) && AllCareful(w, rest) ensures NoOrphan(Final(w, rest).db) {
      RunKeepsTracked(w, rest);
    }
  }

  /** A step is careful exactly when no careful continuation of it loses a key. */
  lemma CarefulExactly(w: World, a: Action)
    requires Inv(w) && AllTracked(w) && Enabled(w, a)
    ensures Careful(w, a) <==> NeverLoses(Apply(w, a))
  {
    if Careful(w, a) {
      StepKeepsInv(w, a);
      StepKeepsTracked(w, a);
      TrackedNeverLoses(Apply(w, a));
    } else {
      CarelessDeleteLoses(w, a.t, a.move.outcome);
    }
  }

  /** No prefix of the run can be continued carefully to a lost key. */
  ghost predicate NeverLosesAlong(w: World, actions: seq<Action>)
    decreases |actions|
  {
    NeverLoses(w) && (|actions| > 0 ==> NeverLosesAlong(Apply(w, actions[0]), actions[1..]))
  }

  lemma {:induction false} CarefulAlong(w: World, actions: seq<Action>)
    requires Inv(w) && AllTracked(w) && Runs(w, actions)
    ensures AllCareful(w, actions) <==> NeverLosesAlong(w, actions)
    decreases |actions|
  {
    TrackedNeverLoses(w);
    if |actions| > 0 {
      CarefulExactly(w, actions[0]);
      if Careful(w, actions[0]) {
        StepKeepsInv(w, actions[0]);
        StepKeepsTracked(w, actions[0]);
        CarefulAlong(Apply(w, actions[0]), actions[1..]);
      }
    }
  }

  /** For every run from the start: all its deletes are careful exactly when no prefix of it endangers a key. */
  lemma KeysAreSafeExactlyInCarefulRuns(actions: seq<Action>)
    requires Runs(EMPTY_WORLD, actions)
    ensures AllCareful(EMPTY_WORLD, actions) <==> NeverLosesAlong(EMPTY_WORLD, actions)
  {
    EmptyWorldInv();
    CarefulAlong(EMPTY_WORLD, actions);
  }

}
