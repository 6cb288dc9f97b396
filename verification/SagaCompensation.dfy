/**
 A failed request revokes the key it issued. It does so to a key that another request was given only after
 its mark found no intent, and exactly two statements, that mark and the read of a marked key, can lead there.
 */
module SagaCompensation {
  import opened SagaState
  import opened SagaSteps
  import opened SagaInvariant
  import opened SagaTheorems
  import opened SagaTracking
  import opened SagaFairness
  import opened SagaFairnessProof
  import opened SagaMoves

  // ---------- Pursuit ----------

  /** The failed request has passed its mark and will ask, or has asked, upstream to revoke the key. */
  predicate PastMark(th: Thread, k: Key) {
    th.Compensating? && th.job.key == k && th.job.stage != MarkStage
  }

  ghost predicate Pursued(w: World, k: Key) {
    k in w.db.compensated || exists u :: u in w.threads && PastMark(w.threads[u], k)
  }

  /** A key was returned by one request and, while it was live, revoked by the request that issued it. */
  ghost predicate TakenBack(db: Db, k: Key) {
    k in db.returned && k in db.compensated && k !in db.invalidated
  }

  // ---------- What a move does to marks ----------

  /** The mark of the failed request has gone through: it found the intent, or it is remembered that it did not. */
  ghost predicate MarkPasses(db: Db, th: Thread, db': Db, k: Key) {
    && th.Compensating? && th.job.key == k && th.job.stage == MarkStage
    && (k in db'.unmarked || (k in db.intents && IsReady(db', k)))
  }

  /** Past its mark the request first asks upstream and then drops row and intent. */
  ghost predicate PursuitGoesOn(db: Db, th: Thread, db': Db, next: Thread, k: Key) {
    PastMark(next, k) ==>
      || (MarkPasses(db, th, db', k) && next.job.stage == CallStage)
      || (PastMark(th, k) && (th.job.stage == CallStage ==> k in db'.compensated || Expired(db, k)))
  }

  ghost predicate MarksOf(db: Db, th: Thread, after: After) {
    && (forall k :: k in after.db.compensated && k !in db.compensated ==>
          PastMark(th, k) && th.job.stage == CallStage && !Expired(db, k))
    && (after.thread.Some? ==> forall k :: PursuitGoesOn(db, th, after.db, after.thread.value, k))
  }

  /** The statement is none of compensation's. */
  ghost predicate Bystander(db: Db, after: After) {
    && after.db.compensated == db.compensated && after.db.unmarked == db.unmarked
    && (after.thread.Some? && after.thread.value.Compensating? ==> after.thread.value.job.stage == MarkStage)
  }

  predicate SameMarks(db: Db, db': Db) {
    db'.unmarked == db.unmarked && db'.compensated == db.compensated
  }

  lemma EffectSameMarks(db: Db, b: Binding, e: Effect)
    requires b in db.creds
    ensures SameMarks(db, ApplyEffect(db, b, e))
  {
  }

  lemma ControlSameMarks(db: Db, th: Thread, outcome: Outcome)
    requires th.Concluding? && th.cause.purpose.Control?
    ensures SameMarks(db, ConcludeIn(db, th, outcome).db)
  {
    assert SameOutside(db, Ended(db, th));
    if th.cause.binding in db.creds {
      EffectSameMarks(db, th.cause.binding, th.cause.purpose.effect);
      var written := ApplyEffect(db, th.cause.binding, th.cause.purpose.effect);
      assert SameOutside(written, Ended(written, th));
    }
  }

  lemma AttentionSameMarks(db: Db, th: Thread, outcome: Outcome)
    requires th.Concluding? && th.cause.purpose == Attention
    ensures SameMarks(db, ConcludeIn(db, th, outcome).db)
  {
    assert SameOutside(db, Ended(db, th));
    if th.cause.binding in db.creds {
      var written := db.(creds := db.creds[th.cause.binding := db.creds[th.cause.binding].(active := false)]);
      assert SameOutside(written, Ended(written, th));
    }
  }

  lemma ConcludeStandsBy(db: Db, th: Thread, outcome: Outcome)
    requires th.Concluding?
    ensures Bystander(db, ConcludeIn(db, th, outcome))
  {
    match th.cause.purpose
    case Control(_) => ControlSameMarks(db, th, outcome);
    case Attention => AttentionSameMarks(db, th, outcome);
    case _ => assert SameOutside(db, Ended(db, th));
  }

  lemma CommitStandsBy(db: Db, t: ThreadId, th: Thread, outcome: Outcome)
    requires Holds(db, t, th) && Can(db, t, th, Commit(outcome))
    ensures Bystander(db, CommitIn(db, th, outcome))
  {
    if th.Concluding? { ConcludeStandsBy(db, th, outcome); }
    if th.Confirming? { ConfirmingIsQuiet(db, th, outcome); }
  }

  lemma WritingStandsBy(db: Db, t: ThreadId, th: Thread, m: Move)
    requires Can(db, t, th, m)
    requires m.Stage? || m.StageAlone? || m.Finalize? || m.MarkRows? || m.DeleteRows? || m.Resolve? || m.Release?
    ensures Bystander(db, MoveIn(db, t, th, m))
  {
    assert SameOutside(db, MoveIn(db, t, th, m).db) by {
      match m
      case Stage(_, _) =>
      case StageAlone(_, _) =>
      case Finalize(_) =>
      case MarkRows(_) =>
      case DeleteRows(_) =>
      case Resolve(_) =>
      case Release(_) =>
    }
  }

  lemma QuietStandsBy(db: Db, t: ThreadId, th: Thread, m: Move)
    requires Can(db, t, th, m) && (!Writes(m) || m.ReadArtifact?) && !m.DeleteRows?
    ensures Bystander(db, MoveIn(db, t, th, m))
  {
    if !m.ReadArtifact? { RestIsQuiet(db, t, th, m); }
  }

  lemma CompensationMarks(db: Db, t: ThreadId, th: Thread, outcome: Outcome)
    requires Global(db) && Holds(db, t, th) && th.Compensating?
    ensures MarksOf(db, th, RevokeNext(db, th, outcome))
  {
    var job, db' := th.job, CompensateIn(db, th.job, outcome);
    if job.stage == MarkStage && outcome == Done && Stored(db.intents, job.id) {
      var k :| k in db.intents && db.intents[k].id == job.id;
      assert KeyOk(db, k);
      assert k == job.key && IsReady(db', k);
    }
  }

  lemma RevokeStandsBy(db: Db, th: Thread, outcome: Outcome)
    requires th.RecoveringOne? || (th.Revoking? && th.index < |th.jobs|)
    ensures Bystander(db, RevokeNext(db, th, outcome))
  {
  }

  lemma LastStandsBy(db: Db, t: ThreadId, th: Thread, m: Move)
    requires Holds(db, t, th) && Can(db, t, th, m) && (m.Revoke? || m.Commit?) && !th.Compensating?
    ensures Bystander(db, MoveIn(db, t, th, m))
  {
    if m.Revoke? { RevokeStandsBy(db, th, m.outcome); } else { CommitStandsBy(db, t, th, m.outcome); }
  }

  lemma MoveStandsBy(db: Db, t: ThreadId, th: Thread, m: Move)
    requires Holds(db, t, th) && Can(db, t, th, m) && !(m.Revoke? && th.Compensating?)
    ensures Bystander(db, MoveIn(db, t, th, m))
  {
    if m.Revoke? || m.Commit? { LastStandsBy(db, t, th, m); }
    else if m.Stage? || m.StageAlone? || m.Finalize? || m.MarkRows? || m.DeleteRows? || m.Resolve? || m.Release? { WritingStandsBy(db, t, th, m); }
    else { QuietStandsBy(db, t, th, m); }
  }

  lemma BystanderMarks(db: Db, th: Thread, after: After)
    requires Bystander(db, after)
    ensures MarksOf(db, th, after)
  {
  }

  lemma MoveMarks(db: Db, t: ThreadId, th: Thread, m: Move)
    requires Global(db) && Holds(db, t, th) && Can(db, t, th, m)
    ensures MarksOf(db, th, MoveIn(db, t, th, m))
  {
    if m.Revoke? && th.Compensating? { CompensationMarks(db, t, th, m.outcome); } else {
      MoveStandsBy(db, t, th, m);
      BystanderMarks(db, th, MoveIn(db, t, th, m));
    }
  }

  /** A move together with what it does to marks. */
  ghost predicate MarkedMove(w: World, w': World, t: ThreadId, m: Move) {
    && EvenMove(w, w', t, m)
    && (forall k :: k in w'.db.compensated && k !in w.db.compensated ==>
          PastMark(w.threads[t], k) && w.threads[t].job.stage == CallStage && !Expired(w.db, k))
    && (t in w'.threads ==> forall k :: PursuitGoesOn(w.db, w.threads[t], w'.db, w'.threads[t], k))
    && (t in w'.threads && w'.threads[t].Compensating? && w'.threads[t].job.stage != MarkStage ==> m == Revoke(Done))
  }

  lemma OnlySuccessGoesOn(db: Db, t: ThreadId, th: Thread, m: Move)
    requires Holds(db, t, th) && Can(db, t, th, m)
    ensures var next := MoveIn(db, t, th, m).thread;
      next.Some? && next.value.Compensating? && next.value.job.stage != MarkStage ==> m == Revoke(Done)
  {
    if !(m.Revoke? && th.Compensating?) { MoveStandsBy(db, t, th, m); }
  }

  lemma AssembleMarked(w: World, after: After, t: ThreadId, m: Move)
    requires EvenMove(w, World(after.db, Put(w.threads, t, after.thread)), t, m) && MarksOf(w.db, w.threads[t], after)
    requires after.thread.Some? && after.thread.value.Compensating? && after.thread.value.job.stage != MarkStage ==> m == Revoke(Done)
    ensures MarkedMove(w, World(after.db, Put(w.threads, t, after.thread)), t, m)
  {
  }

  lemma MoveIsMarked(w: World, t: ThreadId, m: Move)
    requires Inv(w) && Enabled(w, Act(t, m))
    ensures MarkedMove(w, Apply(w, Act(t, m)), t, m)
  {
    MoveIsEven(w, t, m);
    assert Holds(w.db, t, w.threads[t]);
    MoveMarks(w.db, t, w.threads[t], m);
    OnlySuccessGoesOn(w.db, t, w.threads[t], m);
    AssembleMarked(w, MoveIn(w.db, t, w.threads[t], m), t, m);
  }

  // ---------- Only after a mark that found no intent ----------

  /** A pursued key whose mark found its intent is out of everybody's reach, unless an invalidation staged it. */
  ghost predicate KeyMarked(w: World, k: Key) {
    Pursued(w, k) && k !in w.db.unmarked && k !in w.db.invalidated ==> k in w.db.closed && OutOfReach(w, k)
  }

  ghost predicate AllMarked(w: World) {
    forall k :: KeyMarked(w, k)
  }

  /** Only the issuer finalizes its key, and only keys without an intent are reused. */
  lemma NobodyHandsOutTheMarked(w: World, t: ThreadId, k: Key, u: ThreadId)
    requires Inv(w) && t in w.threads && w.threads[t].Compensating? && w.threads[t].job.key == k
    requires k !in w.db.invalidated && k in w.db.intents && u in w.threads && u != t
    ensures !HandsOut(w.threads[u], k)
  {
    assert Holds(w.db, t, w.threads[t]) && Holds(w.db, u, w.threads[u]);
  }

  /** At the mark: the intent was there, so nobody has been given the key, and nobody is about to. */
  lemma MarkedComesOutOfReach(w: World, w': World, t: ThreadId, m: Move, k: Key)
    requires MarkedMove(w, w', t, m) && k !in w'.db.invalidated
    requires MarkPasses(w.db, w.threads[t], w'.db, k) && k !in w'.db.unmarked
    ensures k in w'.db.closed && OutOfReach(w', k)
  {
    KeyMoved(w, w', t, m, k);
    assert Holds(w.db, t, w.threads[t]);
    forall u | u in w'.threads ensures !HandsOut(w'.threads[u], k) {
      if u == t { assert MayHandOut(w.db, w'.threads[t], k); } else { NobodyHandsOutTheMarked(w, t, k, u); }
    }
  }

  /** Who pursues the key after the move pursued it before, or has just passed the mark. */
  lemma PursuedBefore(w: World, w': World, t: ThreadId, m: Move, k: Key)
    requires MarkedMove(w, w', t, m) && Pursued(w', k)
    ensures Pursued(w, k) || MarkPasses(w.db, w.threads[t], w'.db, k)
  {
    if k !in w'.db.compensated {
      var u :| u in w'.threads && PastMark(w'.threads[u], k);
      if u == t { assert PursuitGoesOn(w.db, w.threads[t], w'.db, w'.threads[t], k); }
    }
  }

  lemma MoveKeepsMarked(w: World, w': World, t: ThreadId, m: Move, k: Key)
    requires MarkedMove(w, w', t, m) && KeyMarked(w, k)
    ensures KeyMarked(w', k)
  {
    KeyMoved(w, w', t, m, k);
    if Pursued(w', k) && k !in w'.db.unmarked && k !in w'.db.invalidated {
      PursuedBefore(w, w', t, m, k);
      if Pursued(w, k) { OutOfReachStays(w, w', t, m, k); } else { MarkedComesOutOfReach(w, w', t, m, k); }
    }
  }

  /** A request or an event hands nothing out and pursues nothing. */
  lemma CalmKeepsMarked(w: World, w': World, t: ThreadId, k: Key)
    requires CalmStep(w, w', t) && KeyMarked(w, k)
    ensures KeyMarked(w', k)
  {
    assert KeyOk(w.db, k) && KeyStep(w.db, w'.db, t, k);
    if Pursued(w', k) && k !in w'.db.unmarked && k !in w'.db.invalidated {
      CalmPursuit(w, w', t, k);
      if !InRow(w.db, k) { NotInRowAfter(w.db, w'.db, t, k); }
    }
  }

  lemma CalmPursuit(w: World, w': World, t: ThreadId, k: Key)
    requires ThreadsCalm(w, w', t) && w'.db.compensated == w.db.compensated && Pursued(w', k)
    ensures Pursued(w, k)
  {
    if k !in w'.db.compensated {
      var u :| u in w'.threads && PastMark(w'.threads[u], k);
      assert u in w.threads && w.threads[u] == w'.threads[u];
    }
  }

  lemma StepKeepsMarked(w: World, a: Action)
    requires Inv(w) && AllMarked(w) && Enabled(w, a)
    ensures AllMarked(Apply(w, a))
  {
    var w' := Apply(w, a);
    match a
    case Happen(e) =>
      HappenIsCalm(w, e, 0);
      forall k ensures KeyMarked(w', k) { assert KeyMarked(w, k); CalmKeepsMarked(w, w', 0, k); }
    case Begin(t, r) =>
      BeginIsCalm(w, t, r);
      forall k ensures KeyMarked(w', k) { assert KeyMarked(w, k); CalmKeepsMarked(w, w', t, k); }
    case Act(t, m) =>
      MoveIsMarked(w, t, m);
      forall k ensures KeyMarked(w', k) { assert KeyMarked(w, k); MoveKeepsMarked(w, w', t, m, k); }
  }

  lemma {:induction false} RunKeepsMarked(w: World, actions: seq<Action>)
    requires Inv(w) && AllMarked(w) && Runs(w, actions)
    ensures Inv(Final(w, actions)) && AllMarked(Final(w, actions))
    decreases |actions|
  {
    if |actions| > 0 {
      StepKeepsInv(w, actions[0]);
      StepKeepsMarked(w, actions[0]);
      RunKeepsMarked(Apply(w, actions[0]), actions[1..]);
    }
  }

  /**
   In every run whatever: a failed request revokes a live key that another request was given only if its
   mark found no intent, or an invalidation had staged the key.
   */
  lemma TakenBackOnlyUnmarked(actions: seq<Action>, k: Key)
    requires Runs(EMPTY_WORLD, actions) && TakenBack(Final(EMPTY_WORLD, actions).db, k)
    ensures k in Final(EMPTY_WORLD, actions).db.unmarked
  {
    EmptyWorldInv();
    RunKeepsMarked(EMPTY_WORLD, actions);
    assert KeyMarked(Final(EMPTY_WORLD, actions), k);
  }

  // ---------- Exactly two statements take keys back ----------

  /** A request was given the key, or is about to return it from its row. */
  ghost predicate Handed(w: World, k: Key) {
    k in w.db.returned || exists u :: u in w.threads && w.threads[u].Reusing? && w.threads[u].key == k
  }

  /** The failed request marks, and goes on to revoke, a live key that another request has. */
  ghost predicate MarksHanded(w: World, th: Thread, m: Move) {
    && m == Revoke(Done) && th.Compensating? && th.job.stage == MarkStage
    && Handed(w, th.job.key) && !Expired(w.db, th.job.key) && th.job.key !in w.db.invalidated
  }

  /** A request takes a key from its row that the request which issued it has set out to revoke. */
  ghost predicate ReadsPursued(w: World, th: Thread, m: Move) {
    && m.ReadArtifact? && th.Checked?
    && var next := ReadStored(w.db, th.slot, th.generation);
       next.Reusing? && Pursued(w, next.key) && next.key !in w.db.invalidated
  }

  ghost predicate Considerate(w: World, a: Action) {
    a.Act? && a.t in w.threads ==> !MarksHanded(w, w.threads[a.t], a.move) && !ReadsPursued(w, w.threads[a.t], a.move)
  }

  ghost predicate AllConsiderate(w: World, actions: seq<Action>)
    decreases |actions|
  {
    |actions| > 0 ==> Considerate(w, actions[0]) && AllConsiderate(Apply(w, actions[0]), actions[1..])
  }

  /** The inductive form: while it is live, a pursued key has been given to nobody, and will not be. */
  ghost predicate KeyLetBe(w: World, k: Key) {
    && !TakenBack(w.db, k)
    && (k in w.db.compensated ==> k in w.db.closed)
    && (forall u :: u in w.threads && PastMark(w.threads[u], k) && w.threads[u].job.stage != CallStage ==>
          k in w.db.compensated || Expired(w.db, k))
    && (Pursued(w, k) && k !in w.db.invalidated && !Expired(w.db, k) ==>
          k !in w.db.returned && forall u :: u in w.threads ==> !HandsOut(w.threads[u], k))
  }

  ghost predicate AllLetBe(w: World) {
    forall k :: KeyLetBe(w, k)
  }

  /** What is known of a considerate move. */
  ghost predicate ConsiderateMove(w: World, w': World, t: ThreadId, m: Move) {
    && MarkedMove(w, w', t, m) && AllLetBe(w) && !MarksHanded(w, w.threads[t], m)
    && (t in w'.threads && w'.threads[t].Reusing? ==> !Pursued(w, w'.threads[t].key) || w'.threads[t].key in w.db.invalidated)
  }

  lemma AssembleConsiderate(w: World, after: After, t: ThreadId, m: Move)
    requires MarkedMove(w, World(after.db, Put(w.threads, t, after.thread)), t, m) && AllLetBe(w) && !MarksHanded(w, w.threads[t], m)
    requires after.thread.Some? && after.thread.value.Reusing? ==>
      !Pursued(w, after.thread.value.key) || after.thread.value.key in w.db.invalidated
    ensures ConsiderateMove(w, World(after.db, Put(w.threads, t, after.thread)), t, m)
  {
  }

  lemma MoveIsConsiderate(w: World, t: ThreadId, m: Move)
    requires Inv(w) && AllLetBe(w) && Enabled(w, Act(t, m)) && Considerate(w, Act(t, m))
    ensures ConsiderateMove(w, Apply(w, Act(t, m)), t, m)
  {
    MoveIsMarked(w, t, m);
    ReadsConsiderately(w, t, m);
    AssembleConsiderate(w, MoveIn(w.db, t, w.threads[t], m), t, m);
  }

  lemma ReadsConsiderately(w: World, t: ThreadId, m: Move)
    requires Enabled(w, Act(t, m)) && !ReadsPursued(w, w.threads[t], m)
    ensures var next := MoveIn(w.db, t, w.threads[t], m).thread;
      next.Some? && next.value.Reusing? ==> !Pursued(w, next.value.key) || next.value.key in w.db.invalidated
  {
    if MoveIn(w.db, t, w.threads[t], m).thread.Some? && MoveIn(w.db, t, w.threads[t], m).thread.value.Reusing? {
      WhoHandsOut(w.db, t, w.threads[t], m);
      OnlyReadsFromChecked(w.db, t, w.threads[t], m);
    }
  }

  lemma OnlyReadsFromChecked(db: Db, t: ThreadId, th: Thread, m: Move)
    requires Can(db, t, th, m) && th.Checked? && MoveIn(db, t, th, m).thread.Some?
    ensures m.ReadArtifact?
  {
  }

  lemma MarkerHandsOutNothing(w: World, t: ThreadId, k: Key, u: ThreadId)
    requires Inv(w) && t in w.threads && w.threads[t].Compensating? && w.threads[t].job.key == k && !Handed(w, k)
    requires u in w.threads && u != t
    ensures !HandsOut(w.threads[u], k)
  {
    assert Holds(w.db, t, w.threads[t]) && Holds(w.db, u, w.threads[u]);
  }

  /** At a considerate mark nobody has the key yet. */
  lemma MarkedIsLetBe(w: World, w': World, t: ThreadId, m: Move, k: Key)
    requires ConsiderateMove(w, w', t, m) && k !in w'.db.invalidated && !Expired(w'.db, k)
    requires MarkPasses(w.db, w.threads[t], w'.db, k) && m == Revoke(Done)
    ensures k !in w'.db.returned && forall u :: u in w'.threads ==> !HandsOut(w'.threads[u], k)
  {
    KeyMoved(w, w', t, m, k);
    ExcusedStable(w.db, w'.db, k);
    assert !Handed(w, k);
    forall u | u in w'.threads ensures !HandsOut(w'.threads[u], k) {
      if u == t { assert NextIsEven(w, t, w'.threads[t]); } else { MarkerHandsOutNothing(w, t, k, u); }
    }
  }

  /** A key that is let be stays so. */
  lemma StaysLetBe(w: World, w': World, t: ThreadId, m: Move, k: Key)
    requires ConsiderateMove(w, w', t, m) && k !in w'.db.invalidated && !Expired(w'.db, k) && Pursued(w, k)
    ensures k !in w'.db.returned && forall u :: u in w'.threads ==> !HandsOut(w'.threads[u], k)
  {
    KeyMoved(w, w', t, m, k);
    ExcusedStable(w.db, w'.db, k);
    assert KeyLetBe(w, k);
    PursuedIsClosed(w, k);
    forall u | u in w'.threads ensures !HandsOut(w'.threads[u], k) {
      if u == t { assert MayHandOut(w.db, w'.threads[t], k); }
    }
  }

  lemma PursuedIsClosed(w: World, k: Key)
    requires Inv(w) && KeyLetBe(w, k) && Pursued(w, k)
    ensures k in w.db.closed
  {
    if k !in w.db.compensated {
      var u :| u in w.threads && PastMark(w.threads[u], k);
      assert Holds(w.db, u, w.threads[u]);
    }
  }

  lemma MoveTakesNothingBack(w: World, w': World, t: ThreadId, m: Move, k: Key)
    requires ConsiderateMove(w, w', t, m)
    ensures !TakenBack(w'.db, k) && (k in w'.db.compensated ==> k in w'.db.closed)
  {
    KeyMoved(w, w', t, m, k);
    assert KeyLetBe(w, k) && Holds(w.db, t, w.threads[t]);
    if k in w'.db.compensated && k !in w.db.compensated { assert PastMark(w.threads[t], k); }
    if k in w'.db.returned && k !in w.db.returned { assert HandsOut(w.threads[t], k); }
  }

  lemma LaterStagesAreLate(w: World, w': World, t: ThreadId, m: Move, k: Key, u: ThreadId)
    requires ConsiderateMove(w, w', t, m) && u in w'.threads
    requires PastMark(w'.threads[u], k) && w'.threads[u].job.stage != CallStage
    ensures k in w'.db.compensated || Expired(w'.db, k)
  {
    KeyMoved(w, w', t, m, k);
    ExcusedStable(w.db, w'.db, k);
    assert KeyLetBe(w, k);
    if u == t { assert PursuitGoesOn(w.db, w.threads[t], w'.db, w'.threads[t], k); }
    else { assert w.threads[u] == w'.threads[u]; }
  }

  lemma NewlyPursued(w: World, w': World, t: ThreadId, m: Move, k: Key)
    requires ConsiderateMove(w, w', t, m) && Pursued(w', k) && !Pursued(w, k)
    ensures MarkPasses(w.db, w.threads[t], w'.db, k) && m == Revoke(Done)
  {
    PursuedBefore(w, w', t, m, k);
    var u :| u in w'.threads && PastMark(w'.threads[u], k);
    assert u == t;
  }

  lemma MoveKeepsLetBe(w: World, w': World, t: ThreadId, m: Move, k: Key)
    requires ConsiderateMove(w, w', t, m)
    ensures KeyLetBe(w', k)
  {
    MoveTakesNothingBack(w, w', t, m, k);
    forall u | u in w'.threads && PastMark(w'.threads[u], k) && w'.threads[u].job.stage != CallStage
      ensures k in w'.db.compensated || Expired(w'.db, k)
    {
      LaterStagesAreLate(w, w', t, m, k, u);
    }
    if Pursued(w', k) && k !in w'.db.invalidated && !Expired(w'.db, k) {
      if Pursued(w, k) { StaysLetBe(w, w', t, m, k); } else {
        NewlyPursued(w, w', t, m, k);
        MarkedIsLetBe(w, w', t, m, k);
      }
    }
  }

  lemma CalmLeavesStages(w: World, w': World, t: ThreadId, k: Key, u: ThreadId)
    requires CalmStep(w, w', t) && KeyLetBe(w, k) && u in w'.threads && PastMark(w'.threads[u], k) && w'.threads[u].job.stage != CallStage
    ensures k in w'.db.compensated || Expired(w'.db, k)
  {
    assert KeyStep(w.db, w'.db, t, k);
    ExcusedStable(w.db, w'.db, k);
    assert u in w.threads && w.threads[u] == w'.threads[u];
  }

  lemma CalmLetsBe(w: World, w': World, t: ThreadId, k: Key)
    requires CalmStep(w, w', t) && KeyLetBe(w, k) && Pursued(w', k) && k !in w'.db.invalidated && !Expired(w'.db, k)
    ensures k !in w'.db.returned && forall u :: u in w'.threads ==> !HandsOut(w'.threads[u], k)
  {
    CalmPursuit(w, w', t, k);
    assert KeyStep(w.db, w'.db, t, k);
    ExcusedStable(w.db, w'.db, k);
  }

  lemma CalmKeepsLetBe(w: World, w': World, t: ThreadId, k: Key)
    requires CalmStep(w, w', t) && KeyLetBe(w, k)
    ensures KeyLetBe(w', k)
  {
    assert KeyStep(w.db, w'.db, t, k);
    if Pursued(w', k) && k !in w'.db.invalidated && !Expired(w'.db, k) { CalmLetsBe(w, w', t, k); }
    forall u | u in w'.threads && PastMark(w'.threads[u], k) && w'.threads[u].job.stage != CallStage
      ensures k in w'.db.compensated || Expired(w'.db, k)
    {
      CalmLeavesStages(w, w', t, k, u);
    }
  }

  lemma StepKeepsLetBe(w: World, a: Action)
    requires Inv(w) && AllLetBe(w) && Enabled(w, a) && Considerate(w, a)
    ensures AllLetBe(Apply(w, a))
  {
    var w' := Apply(w, a);
    match a
    case Happen(e) =>
      HappenIsCalm(w, e, 0);
      forall k ensures KeyLetBe(w', k) { assert KeyLetBe(w, k); CalmKeepsLetBe(w, w', 0, k); }
    case Begin(t, r) =>
      BeginIsCalm(w, t, r);
      forall k ensures KeyLetBe(w', k) { assert KeyLetBe(w, k); CalmKeepsLetBe(w, w', t, k); }
    case Act(t, m) =>
      MoveIsConsiderate(w, t, m);
      forall k ensures KeyLetBe(w', k) { MoveKeepsLetBe(w, w', t, m, k); }
  }

  ghost predicate NothingTakenBack(db: Db) {
    forall k :: !TakenBack(db, k)
  }

  lemma {:induction false} RunKeepsLetBe(w: World, actions: seq<Action>)
    requires Inv(w) && AllLetBe(w) && Runs(w, actions) && AllConsiderate(w, actions)
    ensures AllLetBe(Final(w, actions)) && NothingTakenBack(Final(w, actions).db)
    decreases |actions|
  {
    if |actions| > 0 {
      StepKeepsInv(w, actions[0]);
      StepKeepsLetBe(w, actions[0]);
      RunKeepsLetBe(Apply(w, actions[0]), actions[1..]);
    } else {
      forall k ensures !TakenBack(w.db, k) { assert KeyLetBe(w, k); }
    }
  }

  // ---------- The converse ----------

  /** However the run goes on considerately, no key is taken back. */
  ghost predicate NeverTakesBack(w: World) {
    forall rest :: Runs(w, rest) && AllConsiderate(w, rest) ==> NothingTakenBack(Final(w, rest).db)
  }

  lemma StepTakesBack(w: World, a: Action)
    requires Enabled(w, a) && Considerate(w, a) && !NeverTakesBack(Apply(w, a))
    ensures !NeverTakesBack(w)
  {
    var w' := Apply(w, a);
    var rest :| Runs(w', rest) && AllConsiderate(w', rest) && !NothingTakenBack(Final(w', rest).db);
    var run := [a] + rest;
    assert run[1..] == rest;
    assert Runs(w, run) && AllConsiderate(w, run) && Final(w, run) == Final(w', rest);
  }

  lemma AlreadyTakenBack(w: World, k: Key)
    requires TakenBack(w.db, k)
    ensures !NeverTakesBack(w)
  {
    assert Runs(w, []) && AllConsiderate(w, []) && Final(w, []) == w;
  }

  /** The request that has passed its mark asks upstream to revoke the key somebody has. */
  lemma CallTakesBack(w: World, t: ThreadId, k: Key)
    requires t in w.threads && PastMark(w.threads[t], k) && w.threads[t].job.stage == CallStage
    requires k in w.db.returned && k !in w.db.invalidated && !Expired(w.db, k)
    ensures !NeverTakesBack(w)
  {
    var a := Act(t, Revoke(Done));
    assert Enabled(w, a) && Considerate(w, a);
    assert Apply(w, a).db == CompensateIn(w.db, w.threads[t].job, Done);
    AlreadyTakenBack(Apply(w, a), k);
    StepTakesBack(w, a);
  }

  /** The key goes out to the request that reads it, and the pursuit of it goes on. */
  lemma ReuseTakesBack(w: World, u: ThreadId, k: Key)
    requires u in w.threads && w.threads[u].Reusing? && w.threads[u].key == k
    requires k !in w.db.invalidated && !Expired(w.db, k)
    requires k in w.db.compensated || exists t :: t in w.threads && PastMark(w.threads[t], k) && w.threads[t].job.stage == CallStage
    ensures !NeverTakesBack(w)
  {
    var a := Act(u, Commit(Done));
    assert Enabled(w, a) && Considerate(w, a);
    var w' := Apply(w, a);
    ReuseReturns(w, u, k);
    if k in w.db.compensated { AlreadyTakenBack(w', k); } else {
      var t :| t in w.threads && PastMark(w.threads[t], k) && w.threads[t].job.stage == CallStage;
      assert w'.threads[t] == w.threads[t];
      CallTakesBack(w', t, k);
    }
    StepTakesBack(w, a);
  }

  lemma ReuseReturns(w: World, u: ThreadId, k: Key)
    requires u in w.threads && w.threads[u].Reusing? && w.threads[u].key == k && !Expired(w.db, k)
    ensures var w' := Apply(w, Act(u, Commit(Done)));
      && k in w'.db.returned && w'.db.invalidated == w.db.invalidated && w'.db.compensated == w.db.compensated
      && w'.db.now == w.db.now && w'.db.info == w.db.info && w'.threads == w.threads - {u}
  {
  }

  lemma MarkedReuserTakesBack(w: World, t: ThreadId, u: ThreadId, k: Key)
    requires t in w.threads && PastMark(w.threads[t], k) && w.threads[t].job.stage == CallStage
    requires u in w.threads && w.threads[u].Reusing? && w.threads[u].key == k && k !in w.db.invalidated && !Expired(w.db, k)
    ensures !NeverTakesBack(w)
  {
    ReuseTakesBack(w, u, k);
  }

  lemma InconsiderateMarkTakesBack(w: World, t: ThreadId, m: Move)
    requires Enabled(w, Act(t, m)) && MarksHanded(w, w.threads[t], m)
    ensures !NeverTakesBack(Apply(w, Act(t, m)))
  {
    var k, w' := w.threads[t].job.key, Apply(w, Act(t, m));
    MarkLeaves(w, t);
    if k in w.db.returned { CallTakesBack(w', t, k); } else {
      var u :| u in w.threads && w.threads[u].Reusing? && w.threads[u].key == k;
      assert w'.threads[u] == w.threads[u];
      MarkedReuserTakesBack(w', t, u, k);
    }
  }

  lemma MarkLeaves(w: World, t: ThreadId)
    requires Enabled(w, Act(t, Revoke(Done))) && w.threads[t].Compensating? && w.threads[t].job.stage == MarkStage
    ensures var k := w.threads[t].job.key; var w' := Apply(w, Act(t, Revoke(Done)));
      && w'.db.returned == w.db.returned && w'.db.invalidated == w.db.invalidated && w'.db.now == w.db.now && w'.db.info == w.db.info
      && t in w'.threads && PastMark(w'.threads[t], k) && w'.threads[t].job.stage == CallStage
      && w'.threads.Keys == w.threads.Keys && forall u :: u in w.threads && u != t ==> w'.threads[u] == w.threads[u]
  {
  }

  lemma InconsiderateReadTakesBack(w: World, t: ThreadId, m: Move)
    requires Inv(w) && AllLetBe(w) && Enabled(w, Act(t, m)) && ReadsPursued(w, w.threads[t], m)
    ensures !NeverTakesBack(Apply(w, Act(t, m)))
  {
    var th := w.threads[t];
    var w' := Apply(w, Act(t, m));
    var k := ReadStored(w.db, th.slot, th.generation).key;
    assert w' == World(w.db, w.threads[t := Reusing(th.slot, k)]);
    assert KeyLetBe(w, k) && Holds(w.db, t, th) && RowOk(w.db, th.slot);
    if k !in w.db.compensated {
      var u :| u in w.threads && PastMark(w.threads[u], k);
      assert w'.threads[u] == w.threads[u];
    }
    ReuseTakesBack(w', t, k);
  }

  lemma LetBeNeverTakesBack(w: World)
    requires Inv(w) && AllLetBe(w)
    ensures NeverTakesBack(w)
  {
    forall rest | Runs(w, rest) && AllConsiderate(w, rest) ensures NothingTakenBack(Final(w, rest).db) {
      RunKeepsLetBe(w, rest);
    }
  }

  /** A step is considerate exactly when no considerate continuation of it takes a key back. */
  lemma ConsiderateExactly(w: World, a: Action)
    requires Inv(w) && AllLetBe(w) && Enabled(w, a)
    ensures Considerate(w, a) <==> NeverTakesBack(Apply(w, a))
  {
    if Considerate(w, a) {
      StepKeepsInv(w, a);
      StepKeepsLetBe(w, a);
      LetBeNeverTakesBack(Apply(w, a));
    } else if MarksHanded(w, w.threads[a.t], a.move) {
      InconsiderateMarkTakesBack(w, a.t, a.move);
    } else {
      InconsiderateReadTakesBack(w, a.t, a.move);
    }
  }

  /** No prefix of the run can be continued considerately to a key taken back. */
  ghost predicate NeverTakesBackAlong(w: World, actions: seq<Action>)
    decreases |actions|
  {
    NeverTakesBack(w) && (|actions| > 0 ==> NeverTakesBackAlong(Apply(w, actions[0]), actions[1..]))
  }

  lemma {:induction false} ConsiderateAlong(w: World, actions: seq<Action>)
    requires Inv(w) && AllLetBe(w) && Runs(w, actions)
    ensures AllConsiderate(w, actions) <==> NeverTakesBackAlong(w, actions)
    decreases |actions|
  {
    LetBeNeverTakesBack(w);
    if |actions| > 0 {
      ConsiderateExactly(w, actions[0]);
      if Considerate(w, actions[0]) {
        StepKeepsInv(w, actions[0]);
        StepKeepsLetBe(w, actions[0]);
        ConsiderateAlong(Apply(w, actions[0]), actions[1..]);
      }
    }
  }

  /** For every run from the start: its marks and reads are considerate exactly when no prefix of it endangers a key. */
  lemma KeysAreLetBeExactlyInConsiderateRuns(actions: seq<Action>)
    requires Runs(EMPTY_WORLD, actions)
    ensures AllConsiderate(EMPTY_WORLD, actions) <==> NeverTakesBackAlong(EMPTY_WORLD, actions)
  {
    EmptyWorldInv();
    ConsiderateAlong(EMPTY_WORLD, actions);
  }

}
