/**
 A mark that finds no intent goes unnoticed. From any such mark on a live key that has been given out, or
 that the next request would be given, the run can go on so that the key is taken back from its holder.
 */
module SagaBlindMarks {
  import opened SagaState
  import opened SagaSteps
  import opened SagaInvariant
  import opened SagaTheorems
  import opened SagaMoves
  import opened SagaCompensation
  import opened SagaTraps

  /** Some continuation takes the key back. */
  ghost predicate CanTakeBack(w: World, k: Key) {
    exists rest :: Runs(w, rest) && TakenBack(Final(w, rest).db, k)
  }

  lemma TakenBackByStep(w: World, a: Action, k: Key)
    requires Enabled(w, a) && CanTakeBack(Apply(w, a), k)
    ensures CanTakeBack(w, k)
  {
    var rest :| Runs(Apply(w, a), rest) && TakenBack(Final(Apply(w, a), rest).db, k);
    assert ([a] + rest)[1..] == rest;
    assert Runs(w, [a] + rest) && Final(w, [a] + rest) == Final(Apply(w, a), rest);
  }

  /** The request that issued the key has passed its mark and is about to ask upstream. */
  ghost predicate Chases(w: World, t: ThreadId, k: Key) {
    && t in w.threads && PastMark(w.threads[t], k) && w.threads[t].job.stage == CallStage
    && k in w.db.info && !Expired(w.db, k) && k !in w.db.invalidated
  }

  lemma ChasedIsTakenBack(w: World, t: ThreadId, k: Key)
    requires Chases(w, t, k) && k in w.db.returned
    ensures CanTakeBack(w, k)
  {
    var w' := Apply(w, Act(t, Revoke(Done)));
    assert w'.db == CompensateIn(w.db, w.threads[t].job, Done);
    assert Runs(w', []) && TakenBack(Final(w', []).db, k);
    TakenBackByStep(w, Act(t, Revoke(Done)), k);
  }

  // ---------- The next request is given the key ----------

  /** A request that came now would find nothing pending and read the key, which lives long enough, from its row. */
  predicate Offered(db: Db, k: Key) {
    && KeptByRow(db, k) && db.now + MINIMUM_RETURN_TTL <= db.info[k].expires
    && db.info[k].slot.binding in db.creds
    && !HasPendingRow(db.rows, db.info[k].slot.binding) && !HasIntent(db, db.info[k].slot.binding)
  }

  ghost predicate ChasesOffered(w: World, t: ThreadId, k: Key) {
    Chases(w, t, k) && Offered(w.db, k)
  }

  /** A move of thread v from its phase th to its phase next, while nothing else changes. */
  lemma ReadingStep(w: World, t: ThreadId, k: Key, v: ThreadId, th: Thread, m: Move, next: Thread)
    requires v != t && v in w.threads && w.threads[v] == th && Can(w.db, v, th, m) && MoveIn(w.db, v, th, m) == After(w.db, Some(next))
    requires CanTakeBack(World(w.db, w.threads[v := next]), k)
    ensures CanTakeBack(w, k)
  {
    assert Apply(w, Act(v, m)) == World(w.db, w.threads[v := next]);
    TakenBackByStep(w, Act(v, m), k);
  }

  lemma ReuserTakesBack(w: World, t: ThreadId, k: Key, v: ThreadId)
    requires ChasesOffered(w, t, k) && v != t && v in w.threads && w.threads[v] == Reusing(w.db.info[k].slot, k)
    ensures CanTakeBack(w, k)
  {
    ReuseReturns(w, v, k);
    ChasedIsTakenBack(Apply(w, Act(v, Commit(Done))), t, k);
    TakenBackByStep(w, Act(v, Commit(Done)), k);
  }

  lemma CheckerTakesBack(w: World, t: ThreadId, k: Key, v: ThreadId, g: nat)
    requires ChasesOffered(w, t, k) && v != t && v in w.threads && w.threads[v] == Checked(w.db.info[k].slot, g)
    ensures CanTakeBack(w, k)
  {
    var s := w.db.info[k].slot;
    assert ReadStored(w.db, s, g) == Reusing(s, k);
    ReuserTakesBack(World(w.db, w.threads[v := Reusing(s, k)]), t, k, v);
    ReadingStep(w, t, k, v, Checked(s, g), ReadArtifact, Reusing(s, k));
  }

  lemma ReaderTakesBack(w: World, t: ThreadId, k: Key, v: ThreadId, g: nat)
    requires ChasesOffered(w, t, k) && w.db.creds[w.db.info[k].slot.binding].active
    requires v != t && v in w.threads && w.threads[v] == SagaState.Locked(w.db.info[k].slot, g)
    ensures CanTakeBack(w, k)
  {
    var s := w.db.info[k].slot;
    var counted := World(w.db, w.threads[v := RowsCounted(s, g)]);
    CheckerTakesBack(World(w.db, counted.threads[v := Checked(s, g)]), t, k, v, g);
    ReadingStep(counted, t, k, v, RowsCounted(s, g), CountIntents, Checked(s, g));
    ReadingStep(w, t, k, v, SagaState.Locked(s, g), CountPendingRows, RowsCounted(s, g));
  }

  lemma OfferStands(db: Db, db': Db, k: Key)
    requires Offered(db, k) && db' == db.(locks := db'.locks, creds := db'.creds) && db'.creds.Keys == db.creds.Keys
    ensures Offered(db', k)
  {
  }

  /** The row lock is free and the credential active: a new request is given the key. */
  lemma RequestTakesBack(w: World, t: ThreadId, k: Key)
    requires ChasesOffered(w, t, k) && LockFree(w.db, w.db.info[k].slot.binding) && w.db.creds[w.db.info[k].slot.binding].active
    ensures CanTakeBack(w, k)
  {
    var v := BiggerThanAll(w.threads.Keys);
    var s := w.db.info[k].slot;
    var a := Begin(v, GetAuthKey(s));
    var w' := Apply(w, a);
    assert w'.threads[v] == SagaState.Locked(s, w.db.creds[s.binding].generation) && w'.threads[t] == w.threads[t];
    OfferStands(w.db, w'.db, k);
    ReaderTakesBack(w', t, k, v, w.db.creds[s.binding].generation);
    TakenBackByStep(w, a, k);
  }

  /** The credential is validated again if need be. */
  lemma FreeLockTakesBack(w: World, t: ThreadId, k: Key)
    requires ChasesOffered(w, t, k) && LockFree(w.db, w.db.info[k].slot.binding)
    ensures CanTakeBack(w, k)
  {
    var a := Happen(Revalidate(w.db.info[k].slot.binding, true));
    OfferStands(w.db, Apply(w, a).db, k);
    RequestTakesBack(Apply(w, a), t, k);
    TakenBackByStep(w, a, k);
  }

  /** Whoever holds the row lock crashes. */
  lemma OfferedTakesBack(w: World, t: ThreadId, k: Key)
    requires ChasesOffered(w, t, k) && LocksOwned(w)
    ensures CanTakeBack(w, k)
  {
    var b := w.db.info[k].slot.binding;
    if b in w.db.locks {
      var a := Act(w.db.locks[b], Crash);
      CrashFrees(w, w.db.locks[b], b);
      OfferStands(w.db, Apply(w, a).db, k);
      OthersStay(w, a, t);
      FreeLockTakesBack(Apply(w, a), t, k);
      TakenBackByStep(w, a, k);
    } else {
      FreeLockTakesBack(w, t, k);
    }
  }

  // ---------- The mark decides ----------

  /** The failed request is at its mark; the key is live and no invalidation wants it. */
  ghost predicate AtMark(w: World, t: ThreadId, k: Key) {
    && t in w.threads && w.threads[t].Compensating? && w.threads[t].job.key == k && w.threads[t].job.stage == MarkStage
    && !Expired(w.db, k) && k !in w.db.invalidated
  }

  lemma BlindMarkLeavesOffer(w: World, t: ThreadId, k: Key)
    requires Inv(w) && AtMark(w, t, k) && Offered(w.db, k)
    ensures Offered(Apply(w, Act(t, Revoke(Done))).db, k)
  {
    var id, db' := w.threads[t].job.id, Apply(w, Act(t, Revoke(Done))).db;
    assert db'.intents == MarkReady(w.db.intents, id, w.db.now);
  }

  /** A key that has been given out, or is on offer, has no intent for its mark to find. */
  lemma GivenKeyHasNoIntent(w: World, t: ThreadId, k: Key)
    requires Inv(w) && AtMark(w, t, k) && (k in w.db.returned || Offered(w.db, k))
    ensures !Stored(w.db.intents, w.threads[t].job.id)
  {
    assert Holds(w.db, t, w.threads[t]) && KeyOk(w.db, k);
    forall j | j in w.db.intents ensures w.db.intents[j].id != w.threads[t].job.id { assert KeyOk(w.db, j); }
  }

  /**
   In every reachable state: a mark on a live key that has been given out, or is on offer, finds no intent,
   is remembered as blind, and some continuation takes the key back.
   */
  lemma BlindMarkTakesBack(w: World, t: ThreadId, k: Key)
    requires Inv(w) && LocksOwned(w) && AtMark(w, t, k) && (k in w.db.returned || Offered(w.db, k))
    ensures !Stored(w.db.intents, w.threads[t].job.id)
    ensures var w' := Apply(w, Act(t, Revoke(Done))); k in w'.db.unmarked && CanTakeBack(w', k)
  {
    var a := Act(t, Revoke(Done));
    var w' := Apply(w, a);
    GivenKeyHasNoIntent(w, t, k);
    MarkLeaves(w, t);
    StepKeepsLocksOwned(w, a);
    assert Holds(w.db, t, w.threads[t]) && KeyOk(w.db, k);
    if k in w.db.returned { ChasedIsTakenBack(w', t, k); } else {
      BlindMarkLeavesOffer(w, t, k);
      OfferedTakesBack(w', t, k);
    }
  }

  /** The thread may come to mark the key. */
  predicate Marker(th: Thread, k: Key) {
    (th.Compensating? && th.job.key == k && th.job.stage == MarkStage) || (th.Finalizing? && th.key == k)
  }

  /** Nobody will ever mark the key again. */
  ghost predicate MarkIsOver(w: World, k: Key) {
    k in w.db.closed && k !in w.db.unmarked && forall u :: u in w.threads ==> !Marker(w.threads[u], k)
  }

  lemma RevokeLeavesMark(db: Db, th: Thread, outcome: Outcome, k: Key)
    requires th.Compensating? || th.RecoveringOne? || (th.Revoking? && th.index < |th.jobs|)
    ensures var next := RevokeNext(db, th, outcome).thread; next.Some? ==> !Marker(next.value, k)
  {
  }

  lemma CommitMarker(db: Db, t: ThreadId, th: Thread, outcome: Outcome, k: Key)
    requires Can(db, t, th, Commit(outcome)) && CommitIn(db, th, outcome).thread.Some?
    requires Marker(CommitIn(db, th, outcome).thread.value, k)
    ensures th.Written? && th.key == k
  {
  }

  lemma LaterMarker(db: Db, t: ThreadId, th: Thread, m: Move, k: Key)
    requires Can(db, t, th, m) && (m.Finalize? || m.Abandon? || m.Resolve? || m.Stage?) && MoveIn(db, t, th, m).thread.Some?
    requires Marker(MoveIn(db, t, th, m).thread.value, k)
    ensures Marker(th, k) || ((th.Staged? || th.Written?) && th.key == k)
  {
  }

  lemma NextMarker(db: Db, t: ThreadId, th: Thread, m: Move, k: Key)
    requires Can(db, t, th, m) && MoveIn(db, t, th, m).thread.Some? && Marker(MoveIn(db, t, th, m).thread.value, k)
    ensures Marker(th, k) || ((th.Staged? || th.Written? || th.IssuedAlone?) && th.key == k)
  {
    if m.Revoke? { RevokeLeavesMark(db, th, m.outcome, k); }
    else if m.Commit? { CommitMarker(db, t, th, m.outcome, k); }
    else if m.Finalize? || m.Abandon? || m.Resolve? || m.Stage? { LaterMarker(db, t, th, m, k); }
  }

  lemma OnlyMarksAreBlind(db: Db, t: ThreadId, th: Thread, m: Move, k: Key)
    requires Holds(db, t, th) && Can(db, t, th, m) && k in MoveIn(db, t, th, m).db.unmarked && k !in db.unmarked
    ensures Marker(th, k)
  {
    if !(m.Revoke? && th.Compensating?) { MoveStandsBy(db, t, th, m); }
  }

  lemma NothingMarked(w: World, t: ThreadId, m: Move, k: Key)
    requires Inv(w) && MarkIsOver(w, k) && Enabled(w, Act(t, m))
    ensures k !in MoveIn(w.db, t, w.threads[t], m).db.unmarked
  {
    assert Holds(w.db, t, w.threads[t]);
    if k in MoveIn(w.db, t, w.threads[t], m).db.unmarked { OnlyMarksAreBlind(w.db, t, w.threads[t], m, k); }
  }

  lemma ActorMarksNothing(w: World, t: ThreadId, m: Move, k: Key)
    requires Inv(w) && MarkIsOver(w, k) && Enabled(w, Act(t, m)) && MoveIn(w.db, t, w.threads[t], m).thread.Some?
    ensures !Marker(MoveIn(w.db, t, w.threads[t], m).thread.value, k)
  {
    assert Holds(w.db, t, w.threads[t]);
    if Marker(MoveIn(w.db, t, w.threads[t], m).thread.value, k) { NextMarker(w.db, t, w.threads[t], m, k); }
  }

  lemma MarkOverAfter(w: World, t: ThreadId, after: After, k: Key)
    requires MarkIsOver(w, k) && k in after.db.closed && k !in after.db.unmarked
    requires after.thread.Some? ==> !Marker(after.thread.value, k)
    ensures MarkIsOver(World(after.db, Put(w.threads, t, after.thread)), k)
  {
  }

  lemma MoveKeepsMarkOver(w: World, t: ThreadId, m: Move, k: Key)
    requires Inv(w) && MarkIsOver(w, k) && Enabled(w, Act(t, m))
    ensures MarkIsOver(Apply(w, Act(t, m)), k)
  {
    var after := MoveIn(w.db, t, w.threads[t], m);
    StepKeepsInv(w, Act(t, m));
    assert KeyStep(w.db, after.db, t, k);
    NothingMarked(w, t, m, k);
    if after.thread.Some? { ActorMarksNothing(w, t, m, k); }
    MarkOverAfter(w, t, after, k);
  }

  lemma CalmKeepsMarkOver(w: World, w': World, t: ThreadId, k: Key)
    requires CalmStep(w, w', t) && MarkIsOver(w, k)
    ensures MarkIsOver(w', k)
  {
  }

  lemma StepKeepsMarkOver(w: World, a: Action, k: Key)
    requires Inv(w) && MarkIsOver(w, k) && Enabled(w, a)
    ensures MarkIsOver(Apply(w, a), k)
  {
    match a
    case Happen(e) => HappenIsCalm(w, e, 0); CalmKeepsMarkOver(w, Apply(w, a), 0, k);
    case Begin(t, r) => BeginIsCalm(w, t, r); CalmKeepsMarkOver(w, Apply(w, a), t, k);
    case Act(t, m) => MoveKeepsMarkOver(w, t, m, k);
  }

  lemma {:induction false} MarkStaysOver(w: World, actions: seq<Action>, k: Key)
    requires Inv(w) && AllMarked(w) && MarkIsOver(w, k) && Runs(w, actions)
    ensures !TakenBack(Final(w, actions).db, k)
    decreases |actions|
  {
    if |actions| > 0 {
      StepKeepsInv(w, actions[0]);
      StepKeepsMarked(w, actions[0]);
      StepKeepsMarkOver(w, actions[0], k);
      MarkStaysOver(Apply(w, actions[0]), actions[1..], k);
    } else {
      assert KeyMarked(w, k);
    }
  }

  lemma NobodyElseMarks(w: World, t: ThreadId, k: Key, u: ThreadId)
    requires Inv(w) && AtMark(w, t, k) && u in w.threads && u != t
    ensures !Marker(w.threads[u], k)
  {
    assert Holds(w.db, t, w.threads[t]) && Holds(w.db, u, w.threads[u]);
  }

  lemma SeeingMarkLeaves(w: World, t: ThreadId, k: Key)
    requires AtMark(w, t, k) && Stored(w.db.intents, w.threads[t].job.id)
    ensures Apply(w, Act(t, Revoke(Done))).db.unmarked == w.db.unmarked
    ensures Apply(w, Act(t, Revoke(Done))).db.closed == w.db.closed
  {
  }

  lemma SeeingMarkIsOver(w: World, t: ThreadId, k: Key)
    requires Inv(w) && AtMark(w, t, k) && Stored(w.db.intents, w.threads[t].job.id) && k !in w.db.unmarked
    ensures MarkIsOver(Apply(w, Act(t, Revoke(Done))), k)
  {
    MarkLeaves(w, t);
    SeeingMarkLeaves(w, t, k);
    assert Holds(w.db, t, w.threads[t]);
    forall u | u in w.threads && u != t ensures !Marker(w.threads[u], k) { NobodyElseMarks(w, t, k, u); }
  }

  /** The other half: once a mark has found its intent, no continuation whatever takes the key back. */
  lemma SeeingMarkTakesNothingBack(w: World, t: ThreadId, k: Key)
    requires Inv(w) && AllMarked(w) && AtMark(w, t, k) && Stored(w.db.intents, w.threads[t].job.id) && k !in w.db.unmarked
    ensures !CanTakeBack(Apply(w, Act(t, Revoke(Done))), k)
  {
    var w' := Apply(w, Act(t, Revoke(Done)));
    StepKeepsInv(w, Act(t, Revoke(Done)));
    StepKeepsMarked(w, Act(t, Revoke(Done)));
    SeeingMarkIsOver(w, t, k);
    forall rest | Runs(w', rest) ensures !TakenBack(Final(w', rest).db, k) { MarkStaysOver(w', rest, k); }
  }

}
