/**
 InvalidateBinding and RetryPending as the service runs them. Before each statement the other requests,
 invalidations without the row lock included, take any number of steps, and each statement may fail, or
 fail after its effect; the service counts what goes wrong. Every execution of these methods is a run of
 the step relation.
 */
module ArtifactLifecycle {
  import opened SagaState
  import opened SagaSteps
  import opened SagaInvariant
  import opened SagaTheorems

  predicate ByOthers(t: ThreadId, actions: seq<Action>) {
    forall i :: 0 <= i < |actions| ==> (actions[i].Begin? || actions[i].Act?) ==> actions[i].t != t
  }

  ghost predicate KeyKept(db: Db, db': Db, k: Key) {
    && (WentReady(db, k) ==> WentReady(db', k))
    && (k in db.info ==> k in db'.info && db'.info[k] == db.info[k])
    && (k in db.returned ==> k in db'.returned)
  }

  /** What a call leaves: the invariant, every acknowledged revocation, every staged key, every intent that went ready. */
  ghost predicate Advances(w: World, w': World) {
    && Inv(w') && w.db.now <= w'.db.now && w.db.acked <= w'.db.acked && w.db.invalidated <= w'.db.invalidated
    && forall k :: KeyKept(w.db, w'.db, k)
  }

  lemma AdvancesTransitive(a: World, b: World, c: World)
    requires Advances(a, b) && Advances(b, c)
    ensures Advances(a, c)
  {
    forall k ensures KeyKept(a.db, c.db, k) { assert KeyKept(a.db, b.db, k) && KeyKept(b.db, c.db, k); }
  }

  lemma AdvancesSelf(w: World)
    requires Inv(w)
    ensures Advances(w, w)
  {
  }

  lemma AdvancesByStep(w: World, a: Action)
    requires Inv(w) && Enabled(w, a)
    ensures Advances(w, Apply(w, a))
  {
    StepKeepsInv(w, a);
    var db' := Apply(w, a).db;
    forall k ensures KeyKept(w.db, db', k) { assert KeyStep(w.db, db', ActorOf(a), k); }
    forall k | k in w.db.acked ensures k in db'.acked { assert KeyStep(w.db, db', ActorOf(a), k); }
    forall k | k in w.db.invalidated ensures k in db'.invalidated { assert KeyStep(w.db, db', ActorOf(a), k); }
  }

  /** What the invariant says about an invalidation that has reached its result under the row lock. */
  lemma ConcludedUnderLock(w: World, t: ThreadId, cause: Cause, result: Result)
    requires Inv(w) && t in w.threads && w.threads[t] == Concluding(cause, result) && cause.held
    ensures result != Failure ==> RowsExcused(w.db, cause.binding)
    ensures result == Success ==> forall s :: s in w.db.rows ==> s.binding != cause.binding
  {
    assert Holds(w.db, t, Concluding(cause, result));
  }

  ghost predicate Concluded(w: World, t: ThreadId, cause: Cause, result: Result) {
    t in w.threads && w.threads[t] == Concluding(cause, result)
  }

  /** Other threads leave a thread's phase alone. */
  lemma {:induction false} OthersKeep(w: World, t: ThreadId, actions: seq<Action>)
    requires Inv(w) && Runs(w, actions) && ByOthers(t, actions)
    ensures Advances(w, Final(w, actions))
    ensures t in w.threads <==> t in Final(w, actions).threads
    ensures t in w.threads ==> Final(w, actions).threads[t] == w.threads[t]
    decreases |actions|
  {
    if |actions| > 0 {
      AdvancesByStep(w, actions[0]);
      OthersKeep(Apply(w, actions[0]), t, actions[1..]);
      AdvancesTransitive(w, Apply(w, actions[0]), Final(w, actions));
    }
  }

  /** A statement that succeeded beyond the mark leaves an acknowledged key: it asked upstream, or came after it. */
  lemma RevokedIsAcked(db: Db, job: Job, outcome: Outcome, recovery: bool)
    requires JobHolds(db, job) && outcome == Done && job.stage != MarkStage
    ensures job.key in RevokeIn(db, job, outcome, recovery).acked
  {
  }

  /** Where one statement of an invalidation's revocation leads. */
  lemma RevokingGoesOn(db: Db, t: ThreadId, cause: Cause, jobs: seq<Job>, index: nat, stage: Stage, clean: bool, outcome: Outcome)
    requires index < |jobs| && Holds(db, t, Revoking(cause, jobs, index, stage, clean))
    ensures var after := MoveIn(db, t, Revoking(cause, jobs, index, stage, clean), Revoke(outcome));
      && after.thread == Some(if outcome == Done && stage != IntentStage then Revoking(cause, jobs, index, NextStage(stage), clean)
                              else NextJob(cause, jobs, index + 1, clean && outcome == Done))
      && (outcome == Done && stage != MarkStage ==> jobs[index].key in after.db.acked)
      && (outcome == Done && stage == IntentStage ==> Forgotten(after.db, jobs[index]))
  {
    if outcome == Done && stage != MarkStage { RevokedIsAcked(db, jobs[index].(stage := stage), outcome, false); }
  }

  /** The two ends of the listing. */
  lemma ListingGoesOn(db: Db, t: ThreadId, cause: Cause, listed: seq<Key>)
    requires Lists(db, cause.binding, listed)
    ensures MoveIn(db, t, Listing(cause), Move.ListRows(listed)) == After(db, Some(StagedAll(cause, listed, [])))
    ensures MoveIn(db, t, Listing(cause), ListFails) == After(db, Some(Concluding(cause, Failure)))
  {
  }

  /** What the marking leaves. */
  lemma MarkingGoesOn(db: Db, t: ThreadId, cause: Cause, jobs: seq<Job>, outcome: Outcome)
    ensures var after := MoveIn(db, t, Marking(cause, jobs), Move.MarkRows(outcome));
      && after.thread == Some(if outcome == Done then NextJob(cause, jobs, 0, true)
                              else Concluding(cause, if |jobs| > 0 then RevocationPending else Failure))
      && (outcome == Done ==> forall s :: s in after.db.rows && s.binding == cause.binding ==> after.db.rows[s].pending)
  {
  }

  /** Where one statement of the recovery worker leads. */
  lemma RecoveringGoesOn(db: Db, t: ThreadId, token: Token, queue: seq<Claimed>, job: Job, outcome: Outcome)
    requires Holds(db, t, RecoveringOne(token, queue, job))
    ensures var after := MoveIn(db, t, RecoveringOne(token, queue, job), Revoke(outcome));
      && after.thread == Some(if outcome != Done then Releasing(token, queue, job.id)
                              else if job.stage == IntentStage then Recovering(token, queue)
                              else RecoveringOne(token, queue, job.(stage := NextStage(job.stage))))
      && (outcome == Done ==> job.key in after.db.acked)
  {
    if outcome == Done { RevokedIsAcked(db, job, outcome, true); }
  }

  /** The key was staged by an invalidation, so it is acknowledged or its intent is ready. */
  ghost predicate UnderRevocation(db: Db, k: Key) {
    k in db.invalidated && (k in db.acked || IsReady(db, k))
  }

  ghost predicate AllStaged(db: Db, keys: seq<Key>) {
    forall i :: 0 <= i < |keys| ==> keys[i] in db.invalidated
  }

  lemma StagedAreUnderRevocation(w: World, keys: seq<Key>)
    requires Inv(w) && AllStaged(w.db, keys)
    ensures forall i :: 0 <= i < |keys| ==> UnderRevocation(w.db, keys[i])
  {
    forall i | 0 <= i < |keys| ensures UnderRevocation(w.db, keys[i]) { assert KeyOk(w.db, keys[i]); }
  }

  /** What the result of an invalidation means for the keys that were listed at the moment `at`. */
  ghost predicate Invalidated(at: World, w: World, binding: Binding, listed: seq<Key>, result: Result) {
    && (result != Failure ==> Lists(at.db, binding, listed))
    && (result == Success ==> forall i :: 0 <= i < |listed| ==> listed[i] in w.db.acked)
    && (result == RevocationPending ==> forall i :: 0 <= i < |listed| ==> UnderRevocation(w.db, listed[i]))
  }

  lemma StaysInvalidated(at: World, w: World, w': World, binding: Binding, listed: seq<Key>, result: Result)
    requires Invalidated(at, w, binding, listed, result) && Advances(w, w')
    ensures Invalidated(at, w', binding, listed, result)
  {
    if result == RevocationPending { StagedAreUnderRevocation(w', listed); }
  }

  predicate NoIntentWith(db: Db, id: IntentId) {
    forall k :: k in db.intents ==> db.intents[k].id != id
  }

  /** Row and intent of the job are gone. */
  ghost predicate Forgotten(db: Db, job: Job) {
    !InRow(db, job.key) && NoIntentWith(db, job.id)
  }

  predicate JobsAcked(db: Db, jobs: seq<Job>) {
    forall k :: 0 <= k < |jobs| ==> jobs[k].key in db.acked
  }

  lemma StillAcked(db: Db, db': Db, jobs: seq<Job>)
    requires JobsAcked(db, jobs) && db.acked <= db'.acked
    ensures JobsAcked(db', jobs)
  {
  }

  lemma OneMoreAcked(db: Db, db': Db, jobs: seq<Job>, index: nat)
    requires index < |jobs| && JobsAcked(db, jobs[..index]) && db.acked <= db'.acked && jobs[index].key in db'.acked
    ensures JobsAcked(db', jobs[..index + 1])
  {
    assert jobs[..index + 1] == jobs[..index] + [jobs[index]];
  }

  lemma OneMoreStaged(db: Db, db': Db, keys: seq<Key>, i: nat)
    requires i < |keys| && AllStaged(db, keys[..i]) && db.invalidated <= db'.invalidated && keys[i] in db'.invalidated
    ensures AllStaged(db', keys[..i + 1])
  {
    assert keys[..i + 1] == keys[..i] + [keys[i]];
  }

  /** The jobs are those of the first listed keys, in order. */
  predicate Follow(jobs: seq<Job>, listed: seq<Key>) {
    |jobs| <= |listed| && forall k :: 0 <= k < |jobs| ==> jobs[k].key == listed[k]
  }

  /** A call says that it succeeded exactly when nothing has gone wrong in it. */
  predicate Reported(before: int, after: int, ok: bool) {
    before <= after && (ok <==> after == before)
  }

  class Service {
    var world: World
    /** How many statements, upstream calls, commits and waits for a lock have gone wrong. */
    var faults: nat

    constructor()
      ensures world == EMPTY_WORLD && Inv(world)
    {
      world, faults := EMPTY_WORLD, 0;
      EmptyWorldInv();
    }

    /** Any other requests, crashes included, run for a while. */
    method Interleave(t: ThreadId)
      requires Inv(world)
      modifies this`world
      ensures Advances(old(world), world)
      ensures t in old(world).threads <==> t in world.threads
      ensures t in world.threads ==> world.threads[t] == old(world).threads[t]
    {
      assert Runs(world, []) && ByOthers(t, []);
      var actions: seq<Action> :| Runs(world, actions) && ByOthers(t, actions);
      OthersKeep(world, t, actions);
      world := Final(world, actions);
    }

    /** This thread executes one statement, call or commit. */
    method Do(t: ThreadId, m: Move)
      requires Inv(world) && Enabled(world, Act(t, m))
      modifies this`world
      ensures world == Apply(old(world), Act(t, m)) && Advances(old(world), world)
    {
      AdvancesByStep(world, Act(t, m));
      world := Apply(world, Act(t, m));
    }

    /** newArtifactIntentID: an identifier no intent has ever had. */
    method NewIntentId() returns (id: IntentId)
      ensures id !in world.db.idOf
    {
      var ids := world.db.idOf.Keys;
      id := 0;
      while ids != {}
        invariant forall i :: i in world.db.idOf && i !in ids ==> i < id
        decreases |ids|
      {
        var i :| i in ids;
        ids := ids - {i};
        if id <= i { id := i + 1; }
      }
    }

    /** ListByBindingRef. */
    method RowKeys(binding: Binding) returns (keys: seq<Key>)
      ensures Lists(world.db, binding, keys)
    {
      var slots := world.db.rows.Keys;
      keys := [];
      while slots != {}
        invariant slots <= world.db.rows.Keys
        invariant forall i :: 0 <= i < |keys| ==> IsKeyOf(world.db, binding, keys[i])
        invariant forall s :: s in world.db.rows && s !in slots && s.binding == binding ==> world.db.rows[s].key in keys
        decreases |slots|
      {
        var s :| s in slots;
        slots := slots - {s};
        if s.binding == binding { keys := keys + [world.db.rows[s].key]; }
      }
    }

    /** The row lock of a credential is held by somebody, and does not come in time. */
    method WaitInVain(binding: Binding)
      requires binding in world.db.locks
      modifies this`faults
      ensures faults == old(faults) + 1
    {
      faults := faults + 1;
    }

    /** What becomes of a statement. */
    method AnyOutcome() returns (outcome: Outcome)
      modifies this`faults
      ensures faults == old(faults) + if outcome == Done then 0 else 1
    {
      if * { outcome := Done; } else if * { outcome := Failed; } else { outcome := Lost; }
      if outcome != Done { faults := faults + 1; }
    }

    // ---------- One repository or upstream call each, after other requests had their turn ----------

    /** ListByBindingRef: what the table held at the moment `at` of the read, unless the read fails. */
    method ListRows(t: ThreadId, cause: Cause) returns (ok: bool, listed: seq<Key>, ghost at: World)
      requires Inv(world) && t in world.threads && world.threads[t] == Listing(cause)
      modifies this
      ensures Advances(old(world), at) && Advances(at, world) && t in world.threads
      ensures ok ==> Lists(at.db, cause.binding, listed) && world.threads[t] == StagedAll(cause, listed, [])
      ensures !ok ==> world.threads[t] == Concluding(cause, Failure)
      ensures Reported(old(faults), faults, ok)
    {
      Interleave(t);
      at := world;
      ok, listed := ListNow(t, cause);
    }

    method ListNow(t: ThreadId, cause: Cause) returns (ok: bool, listed: seq<Key>)
      requires Inv(world) && t in world.threads && world.threads[t] == Listing(cause)
      modifies this
      ensures Advances(old(world), world) && t in world.threads && Lists(old(world).db, cause.binding, listed)
      ensures world.threads[t] == if ok then StagedAll(cause, listed, []) else Concluding(cause, Failure)
      ensures Reported(old(faults), faults, ok)
    {
      listed := RowKeys(cause.binding);
      var outcome := AnyOutcome();
      ok := outcome == Done;
      ListingGoesOn(world.db, t, cause, listed);
      if ok { Do(t, Move.ListRows(listed)); } else { Do(t, ListFails); }
    }

    /** stageArtifact with the ready state; `persisted` is the identifier the upsert returned. */
    method StageArtifact(t: ThreadId, cause: Cause, listed: seq<Key>, jobs: seq<Job>)
      returns (ok: bool, persisted: IntentId)
      requires Inv(world) && t in world.threads && world.threads[t] == Staging(cause, listed, jobs)
      requires |jobs| < |listed|
      modifies this
      ensures Advances(old(world), world) && t in world.threads
      ensures world.threads[t] ==
        if ok then StagedAll(cause, listed, jobs + [Job(listed[|jobs|], persisted, MarkStage)]) else Concluding(cause, Failure)
      ensures ok ==> listed[|jobs|] in world.db.invalidated
      ensures ok ==>
        && listed[|jobs|] in world.db.intents
        && world.db.intents[listed[|jobs|]] == Intent(persisted, Ready, world.db.now, Free)
      ensures Reported(old(faults), faults, ok)
    {
      Interleave(t);
      ghost var before := world;
      ok, persisted := StageNow(t, cause, listed, jobs);
      AdvancesTransitive(old(world), before, world);
    }

    method StageNow(t: ThreadId, cause: Cause, listed: seq<Key>, jobs: seq<Job>) returns (ok: bool, persisted: IntentId)
      requires Inv(world) && t in world.threads && world.threads[t] == Staging(cause, listed, jobs)
      requires |jobs| < |listed|
      modifies this
      ensures Advances(old(world), world) && t in world.threads
      ensures world.threads[t] ==
        if ok then StagedAll(cause, listed, jobs + [Job(listed[|jobs|], persisted, MarkStage)]) else Concluding(cause, Failure)
      ensures ok ==>
        && listed[|jobs|] in world.db.invalidated && listed[|jobs|] in world.db.intents
        && world.db.intents[listed[|jobs|]] == Intent(persisted, Ready, world.db.now, Free)
      ensures Reported(old(faults), faults, ok)
    {
      var key := listed[|jobs|];
      var id := NewIntentId();
      persisted := if key in world.db.intents then world.db.intents[key].id else id;
      var outcome := AnyOutcome();
      Do(t, Move.Stage(id, outcome));
      ok := outcome == Done;
    }

    /** MarkRevocationPendingImmediately. */
    method MarkRows(t: ThreadId, cause: Cause, jobs: seq<Job>) returns (ok: bool)
      requires Inv(world) && t in world.threads && world.threads[t] == Marking(cause, jobs)
      modifies this
      ensures Advances(old(world), world) && t in world.threads
      ensures world.threads[t] ==
        if ok then NextJob(cause, jobs, 0, true) else Concluding(cause, if |jobs| > 0 then RevocationPending else Failure)
      ensures ok ==> forall s :: s in world.db.rows && s.binding == cause.binding ==> world.db.rows[s].pending
      ensures Reported(old(faults), faults, ok)
    {
      Interleave(t);
      ghost var before := world;
      ok := MarkNow(t, cause, jobs);
      AdvancesTransitive(old(world), before, world);
    }

    method MarkNow(t: ThreadId, cause: Cause, jobs: seq<Job>) returns (ok: bool)
      requires Inv(world) && t in world.threads && world.threads[t] == Marking(cause, jobs)
      modifies this
      ensures Advances(old(world), world) && t in world.threads
      ensures world.threads[t] ==
        if ok then NextJob(cause, jobs, 0, true) else Concluding(cause, if |jobs| > 0 then RevocationPending else Failure)
      ensures ok ==> forall s :: s in world.db.rows && s.binding == cause.binding ==> world.db.rows[s].pending
      ensures Reported(old(faults), faults, ok)
    {
      var outcome := AnyOutcome();
      MarkingGoesOn(world.db, t, cause, jobs, outcome);
      Do(t, Move.MarkRows(outcome));
      ok := outcome == Done;
    }

    /** DeleteByBindingRefImmediately. */
    method DeleteRows(t: ThreadId, cause: Cause, jobs: seq<Job>) returns (ok: bool)
      requires Inv(world) && t in world.threads && world.threads[t] == Deleting(cause, jobs)
      modifies this
      ensures Advances(old(world), world) && t in world.threads
      ensures world.threads[t] == Concluding(cause, if ok then Success else Failure)
      ensures ok ==> forall s :: s in world.db.rows ==> s.binding != cause.binding
      ensures Reported(old(faults), faults, ok)
    {
      Interleave(t);
      ghost var before := world;
      ok := DeleteNow(t, cause, jobs);
      AdvancesTransitive(old(world), before, world);
    }

    method DeleteNow(t: ThreadId, cause: Cause, jobs: seq<Job>) returns (ok: bool)
      requires Inv(world) && t in world.threads && world.threads[t] == Deleting(cause, jobs)
      modifies this
      ensures Advances(old(world), world) && t in world.threads
      ensures world.threads[t] == Concluding(cause, if ok then Success else Failure)
      ensures ok ==> forall s :: s in world.db.rows ==> s.binding != cause.binding
      ensures Reported(old(faults), faults, ok)
    {
      var outcome := AnyOutcome();
      assert Holds(world.db, t, world.threads[t]);
      Do(t, Move.DeleteRows(outcome));
      ok := outcome == Done;
    }

    /** One of the four statements of revokeIssuedArtifact inside InvalidateBinding. */
    method RevokeStatement(t: ThreadId, cause: Cause, jobs: seq<Job>, index: nat, stage: Stage, clean: bool)
      returns (ok: bool)
      requires Inv(world) && t in world.threads && index < |jobs|
      requires world.threads[t] == Revoking(cause, jobs, index, stage, clean)
      modifies this
      ensures Advances(old(world), world) && t in world.threads
      ensures world.threads[t] ==
        if ok && stage != IntentStage then Revoking(cause, jobs, index, NextStage(stage), clean)
        else NextJob(cause, jobs, index + 1, clean && ok)
      ensures ok && stage != MarkStage ==> jobs[index].key in world.db.acked
      ensures ok && stage == IntentStage ==> Forgotten(world.db, jobs[index])
      ensures Reported(old(faults), faults, ok)
    {
      Interleave(t);
      ghost var before := world;
      ok := RevokeNow(t, cause, jobs, index, stage, clean);
      AdvancesTransitive(old(world), before, world);
    }

    method RevokeNow(t: ThreadId, cause: Cause, jobs: seq<Job>, index: nat, stage: Stage, clean: bool) returns (ok: bool)
      requires Inv(world) && t in world.threads && index < |jobs|
      requires world.threads[t] == Revoking(cause, jobs, index, stage, clean)
      modifies this
      ensures Advances(old(world), world) && t in world.threads
      ensures world.threads[t] ==
        if ok && stage != IntentStage then Revoking(cause, jobs, index, NextStage(stage), clean)
        else NextJob(cause, jobs, index + 1, clean && ok)
      ensures ok && stage != MarkStage ==> jobs[index].key in world.db.acked
      ensures ok && stage == IntentStage ==> Forgotten(world.db, jobs[index])
      ensures Reported(old(faults), faults, ok)
    {
      var outcome := AnyOutcome();
      RevokingGoesOn(world.db, t, cause, jobs, index, stage, clean, outcome);
      Do(t, Move.Revoke(outcome));
      ok := outcome == Done;
    }

    // ---------- InvalidateBinding ----------

    /** RevokeIssuedArtifact: mark ready, revoke upstream, drop the row, drop the intent; stop at the first error. */
    method RevokeIssuedArtifact(t: ThreadId, cause: Cause, jobs: seq<Job>, index: nat, clean: bool) returns (ok: bool)
      requires Inv(world) && t in world.threads && index < |jobs|
      requires world.threads[t] == Revoking(cause, jobs, index, MarkStage, clean)
      modifies this
      ensures Advances(old(world), world)
      ensures t in world.threads && world.threads[t] == NextJob(cause, jobs, index + 1, clean && ok)
      ensures ok ==> jobs[index].key in world.db.acked && Forgotten(world.db, jobs[index])
      ensures Reported(old(faults), faults, ok)
    {
      ok := RevokeStatement(t, cause, jobs, index, MarkStage, clean);
      if !ok { return; }
      ghost var before := world;
      ok := RevokeStatement(t, cause, jobs, index, CallStage, clean);
      AdvancesTransitive(old(world), before, world);
      if !ok { return; }
      before := world;
      ok := ForgetRevoked(t, cause, jobs, index, clean);
      AdvancesTransitive(old(world), before, world);
    }

    /** The last two statements: drop the row that carries the key, then its intent. */
    method ForgetRevoked(t: ThreadId, cause: Cause, jobs: seq<Job>, index: nat, clean: bool) returns (ok: bool)
      requires Inv(world) && t in world.threads && index < |jobs|
      requires world.threads[t] == Revoking(cause, jobs, index, RowStage, clean)
      modifies this
      ensures Advances(old(world), world)
      ensures t in world.threads && world.threads[t] == NextJob(cause, jobs, index + 1, clean && ok)
      ensures ok ==> Forgotten(world.db, jobs[index])
      ensures Reported(old(faults), faults, ok)
    {
      ok := RevokeStatement(t, cause, jobs, index, RowStage, clean);
      if !ok { return; }
      ghost var before := world;
      ok := RevokeStatement(t, cause, jobs, index, IntentStage, clean);
      AdvancesTransitive(old(world), before, world);
    }

    /** The staging loop of InvalidateBinding; without an error every listed key ends with a ready intent. */
    method StageAll(t: ThreadId, cause: Cause, listed: seq<Key>) returns (ok: bool, jobs: seq<Job>)
      requires Inv(world) && t in world.threads && world.threads[t] == StagedAll(cause, listed, [])
      modifies this
      ensures Advances(old(world), world) && t in world.threads
      ensures world.threads[t] == if ok then Marking(cause, jobs) else Concluding(cause, Failure)
      ensures ok ==> |jobs| == |listed| && Follow(jobs, listed) && AllStaged(world.db, listed)
      ensures Reported(old(faults), faults, ok)
    {
      jobs := [];
      ghost var before;
      AdvancesSelf(world);
      while |jobs| < |listed|
        invariant |jobs| <= |listed| && Advances(old(world), world)
        invariant t in world.threads && world.threads[t] == StagedAll(cause, listed, jobs)
        invariant Follow(jobs, listed) && AllStaged(world.db, listed[..|jobs|]) && faults == old(faults)
        decreases |listed| - |jobs|
      {
        before := world;
        ok, jobs := StageOneMore(t, cause, listed, jobs);
        AdvancesTransitive(old(world), before, world);
        if !ok { return; }
      }
      assert listed[..|jobs|] == listed;
      ok := true;
    }

    /** The body of the staging loop. */
    method StageOneMore(t: ThreadId, cause: Cause, listed: seq<Key>, jobs: seq<Job>) returns (ok: bool, longer: seq<Job>)
      requires Inv(world) && t in world.threads && world.threads[t] == Staging(cause, listed, jobs)
      requires Follow(jobs, listed) && |jobs| < |listed| && AllStaged(world.db, listed[..|jobs|])
      modifies this
      ensures Advances(old(world), world) && t in world.threads
      ensures world.threads[t] == if ok then StagedAll(cause, listed, longer) else Concluding(cause, Failure)
      ensures ok ==> |longer| == |jobs| + 1 && Follow(longer, listed) && AllStaged(world.db, listed[..|longer|])
      ensures Reported(old(faults), faults, ok)
    {
      ghost var before := world;
      var persisted;
      ok, persisted := StageArtifact(t, cause, listed, jobs);
      longer := jobs + [Job(listed[|jobs|], persisted, MarkStage)];
      if ok { OneMoreStaged(before.db, world.db, listed, |jobs|); }
    }

    /** The revocation loop of InvalidateBinding: every intent is tried, errors are collected. */
    method RevokeAll(t: ThreadId, cause: Cause, jobs: seq<Job>) returns (clean: bool)
      requires Inv(world) && t in world.threads && world.threads[t] == NextJob(cause, jobs, 0, true)
      modifies this
      ensures Advances(old(world), world)
      ensures t in world.threads && world.threads[t] == NextJob(cause, jobs, |jobs|, clean)
      ensures clean ==> JobsAcked(world.db, jobs)
      ensures Reported(old(faults), faults, clean)
    {
      clean := true;
      var index := 0;
      ghost var before;
      AdvancesSelf(world);
      while index < |jobs|
        invariant 0 <= index <= |jobs| && Advances(old(world), world)
        invariant t in world.threads && world.threads[t] == NextJob(cause, jobs, index, clean)
        invariant Reported(old(faults), faults, clean) && (clean ==> JobsAcked(world.db, jobs[..index]))
      {
        before := world;
        var ok := RevokeIssuedArtifact(t, cause, jobs, index, clean);
        AdvancesTransitive(old(world), before, world);
        if clean && ok { OneMoreAcked(before.db, world.db, jobs, index); }
        clean := clean && ok;
        index := index + 1;
      }
      assert jobs[..|jobs|] == jobs;
    }

    /**
     InvalidateBinding, which lists the rows at the moment `at`, and succeeds unless something goes wrong. Success
     means that every listed key was revoked upstream, RevocationPending that every listed key is under revocation;
     under the row lock they mean besides that the binding has no artifact row left, and that every live row of it
     is staged.
     */
    method InvalidateBinding(t: ThreadId, cause: Cause) returns (listed: seq<Key>, result: Result, ghost at: World)
      requires Inv(world) && t in world.threads && world.threads[t] == Listing(cause)
      modifies this
      ensures Advances(old(world), world) && Concluded(world, t, cause, result)
      ensures Advances(old(world), at) && Advances(at, world)
      ensures Invalidated(at, world, cause.binding, listed, result)
      ensures cause.held && result == Success ==> forall s :: s in world.db.rows ==> s.binding != cause.binding
      ensures cause.held && result == RevocationPending ==> RowsExcused(world.db, cause.binding)
      ensures Reported(old(faults), faults, result == Success)
    {
      var ok;
      ok, listed, at := ListRows(t, cause);
      ghost var before := world;
      AdvancesSelf(world);
      result := Failure;
      if ok { result := StageAndRevoke(t, cause, listed); }
      AdvancesTransitive(at, before, world);
      AdvancesTransitive(old(world), at, world);
      if cause.held { ConcludedUnderLock(world, t, cause, result); }
    }

    /** What InvalidateBinding does with the rows it has listed. */
    method StageAndRevoke(t: ThreadId, cause: Cause, listed: seq<Key>) returns (result: Result)
      requires Inv(world) && t in world.threads && world.threads[t] == StagedAll(cause, listed, [])
      modifies this
      ensures Advances(old(world), world) && Concluded(world, t, cause, result)
      ensures result == Success ==> forall i :: 0 <= i < |listed| ==> listed[i] in world.db.acked
      ensures result == RevocationPending ==> forall i :: 0 <= i < |listed| ==> UnderRevocation(world.db, listed[i])
      ensures Reported(old(faults), faults, result == Success)
    {
      var ok, jobs := StageAll(t, cause, listed);
      if !ok { return Failure; }
      ghost var before := world;
      result := RevokeStaged(t, cause, jobs);
      AdvancesTransitive(old(world), before, world);
      StagedAreUnderRevocation(world, listed);
    }

    /** The second half of InvalidateBinding: hide the rows, revoke every staged key, delete the rows. */
    method RevokeStaged(t: ThreadId, cause: Cause, jobs: seq<Job>) returns (result: Result)
      requires Inv(world) && t in world.threads && world.threads[t] == Marking(cause, jobs)
      modifies this
      ensures Advances(old(world), world) && Concluded(world, t, cause, result)
      ensures result == Success ==> JobsAcked(world.db, jobs)
      ensures Reported(old(faults), faults, result == Success)
    {
      var ok := MarkRows(t, cause, jobs);
      if !ok { return if |jobs| > 0 then RevocationPending else Failure; }
      ghost var before := world;
      result := RevokeHidden(t, cause, jobs);
      AdvancesTransitive(old(world), before, world);
    }

    /** After the rows are hidden: revoke, and delete the rows only when every revocation succeeded. */
    method RevokeHidden(t: ThreadId, cause: Cause, jobs: seq<Job>) returns (result: Result)
      requires Inv(world) && t in world.threads && world.threads[t] == NextJob(cause, jobs, 0, true)
      modifies this
      ensures Advances(old(world), world) && Concluded(world, t, cause, result)
      ensures result == Success ==> JobsAcked(world.db, jobs)
      ensures Reported(old(faults), faults, result == Success)
    {
      var clean := RevokeAll(t, cause, jobs);
      if !clean { return RevocationPending; }
      ghost var before := world;
      var ok := DeleteRows(t, cause, jobs);
      AdvancesTransitive(old(world), before, world);
      StillAcked(before.db, world.db, jobs);
      return if ok then Success else Failure;
    }

    // ---------- RetryPending ----------

    /**
     ClaimRevocationIntents, at the moment `at`: up to 100 intents that were due at the time of the call, the first in
     order of `ready_after` and `intent_id`, get this worker's lease, under a token never used before; fewer than 100
     only if no other one was due.
     */
    method ClaimIntents(t: ThreadId) returns (ok: bool, token: Token, claimed: seq<Claimed>, ghost at: World)
      requires Inv(world) && t !in world.threads
      modifies this
      ensures Advances(old(world), at) && Advances(at, world)
      ensures ok ==> t in world.threads && world.threads[t] == Recovering(token, claimed)
      ensures ok ==> token !in at.db.tokenOwner && |claimed| <= 100 && DistinctClaims(claimed)
      ensures ok ==> forall i :: 0 <= i < |claimed| ==>
        && claimed[i].key in at.db.intents && DueAt(at.db.intents[claimed[i].key], old(world).db.now)
        && ClaimedNow(at.db, world.db, claimed[i], Held(token, old(world).db.now + 30))
      ensures ok ==> forall k :: k in at.db.intents && (forall i :: 0 <= i < |claimed| ==> claimed[i].key != k) ==>
        k in world.db.intents && world.db.intents[k] == at.db.intents[k]
      ensures ok && |claimed| < 100 ==> forall k :: k in at.db.intents && DueAt(at.db.intents[k], old(world).db.now) ==>
        Claimed(k, at.db.intents[k].id, at.db.intents[k].state) in claimed
      ensures ok ==> FirstClaimed(at.db, old(world).db.now, claimed)
      ensures !ok ==> t !in world.threads && claimed == []
      ensures Reported(old(faults), faults, ok)
    {
      var time := world.db.now;
      Interleave(t);
      at := world;
      var outcome := AnyOutcome();
      ok, token, claimed := outcome == Done, 0, [];
      AdvancesSelf(world);
      if ok { token, claimed := ClaimNow(t, time); }
    }

    method ClaimNow(t: ThreadId, time: nat) returns (token: Token, claimed: seq<Claimed>)
      requires Inv(world) && t !in world.threads && time <= world.db.now
      modifies this`world
      ensures Advances(old(world), world) && t in world.threads && world.threads[t] == Recovering(token, claimed)
      ensures token !in old(world).db.tokenOwner && |claimed| <= CLAIM_LIMIT && DistinctClaims(claimed)
      ensures forall i :: 0 <= i < |claimed| ==>
        && claimed[i].key in old(world).db.intents && Claimable(old(world).db.intents[claimed[i].key], time)
        && ClaimedNow(old(world).db, world.db, claimed[i], Held(token, time + REVOCATION_LEASE))
      ensures forall k :: k in old(world).db.intents && (forall i :: 0 <= i < |claimed| ==> claimed[i].key != k) ==>
        k in world.db.intents && world.db.intents[k] == old(world).db.intents[k]
      ensures FirstClaimed(old(world).db, time, claimed)
      ensures |claimed| < CLAIM_LIMIT ==> forall k :: k in old(world).db.intents && Claimable(old(world).db.intents[k], time) ==>
        Claimed(k, old(world).db.intents[k].id, old(world).db.intents[k].state) in claimed
    {
      token := NewToken();
      var keys := DueKeys(time);
      KeysComeFirst(world.db, keys, time);
      claimed := Snapshot(world.db.intents, keys);
      KeysAreClaimed(world.db, t, token, keys, time);
      AdvancesByStep(world, Begin(t, Request.RetryPending(token, keys, time)));
      world := Apply(world, Begin(t, Request.RetryPending(token, keys, time)));
    }

    method NewToken() returns (token: Token)
      ensures token !in world.db.tokenOwner
    {
      var tokens := world.db.tokenOwner.Keys;
      token := 0;
      while tokens != {}
        invariant forall x :: x in world.db.tokenOwner && x !in tokens ==> x < token
        decreases |tokens|
      {
        var x :| x in tokens;
        tokens := tokens - {x};
        if token <= x { token := x + 1; }
      }
    }

    /** The intents the claim query selects: the first 100 that are due, in order. */
    method DueKeys(at: nat) returns (keys: seq<Key>)
      ensures |keys| <= CLAIM_LIMIT && FirstDue(world.db.intents, at, keys)
      ensures |keys| < CLAIM_LIMIT ==> forall k :: k in world.db.intents && Claimable(world.db.intents[k], at) ==> k in keys
    {
      keys := [];
      var rest := set k | k in world.db.intents && Claimable(world.db.intents[k], at);
      while rest != {} && |keys| < CLAIM_LIMIT
        invariant |keys| <= CLAIM_LIMIT && FirstDue(world.db.intents, at, keys)
        invariant forall k :: k in rest <==> k in world.db.intents && Claimable(world.db.intents[k], at) && k !in keys
        decreases |rest|
      {
        var k := Earliest(rest);
        assert FirstDue(world.db.intents, at, keys + [k]);
        keys, rest := keys + [k], rest - {k};
      }
    }

    /** The one that was due first, by its identifier among several. */
    method Earliest(rest: set<Key>) returns (first: Key)
      requires rest != {} && rest <= world.db.intents.Keys
      ensures first in rest && forall k :: k in rest ==> NotLater(world.db.intents[first], world.db.intents[k])
    {
      first :| first in rest;
      var others := rest - {first};
      while others != {}
        invariant first in rest && others <= rest
        invariant forall k :: k in rest && k !in others ==> NotLater(world.db.intents[first], world.db.intents[k])
        decreases |others|
      {
        var k :| k in others;
        others := others - {k};
        if !NotLater(world.db.intents[first], world.db.intents[k]) { first := k; }
      }
    }

    /**
     ResolveProvisionalRevocationIntent, at the moment `at`; it waits for the row lock, or gives up without effect. The
     key is to be revoked exactly when the claim still stands and no visible row carries the key.
     */
    method ResolveProvisional(t: ThreadId, token: Token, queue: seq<Claimed>)
      returns (ok: bool, shouldRevoke: bool, ghost at: World)
      requires Inv(world) && t in world.threads && world.threads[t] == Recovering(token, queue)
      requires |queue| > 0 && queue[0].state == Provisional
      modifies this
      ensures Advances(old(world), at) && Advances(at, world) && t in world.threads
      ensures world.threads[t] ==
        if !ok then Releasing(token, queue[1..], queue[0].id)
        else if shouldRevoke then RecoveringOne(token, queue[1..], Job(queue[0].key, queue[0].id, CallStage))
        else Recovering(token, queue[1..])
      ensures ok ==> (shouldRevoke <==> !SparedAt(at.db, token, queue[0]))
      ensures Reported(old(faults), faults, ok)
    {
      Interleave(t);
      at := world;
      ok, shouldRevoke := ResolveNow(t, token, queue);
    }

    method ResolveNow(t: ThreadId, token: Token, queue: seq<Claimed>) returns (ok: bool, shouldRevoke: bool)
      requires Inv(world) && t in world.threads && world.threads[t] == Recovering(token, queue)
      requires |queue| > 0 && queue[0].state == Provisional
      modifies this
      ensures Advances(old(world), world) && t in world.threads
      ensures world.threads[t] ==
        if !ok then Releasing(token, queue[1..], queue[0].id)
        else if shouldRevoke then RecoveringOne(token, queue[1..], Job(queue[0].key, queue[0].id, CallStage))
        else Recovering(token, queue[1..])
      ensures ok ==> (shouldRevoke <==> !SparedAt(old(world).db, token, queue[0]))
      ensures Reported(old(faults), faults, ok)
    {
      var outcome := AnyOutcome();
      if !Can(world.db, t, world.threads[t], Resolve(outcome)) {
        if outcome == Done { WaitInVain(world.db.info[queue[0].key].slot.binding); }
        outcome := Failed;
      }
      ResolvedPhases(world.db, token, queue, outcome);
      Do(t, Resolve(outcome));
      ok := outcome == Done;
      shouldRevoke := world.threads[t].RecoveringOne?;
    }

    /** A claimed intent that is ready needs no resolution. */
    method TakeReadyIntent(t: ThreadId, token: Token, queue: seq<Claimed>)
      requires Inv(world) && t in world.threads && world.threads[t] == Recovering(token, queue)
      requires |queue| > 0 && queue[0].state == Ready
      modifies this`world
      ensures Advances(old(world), world) && t in world.threads
      ensures world.threads[t] == RecoveringOne(token, queue[1..], Job(queue[0].key, queue[0].id, CallStage))
    {
      Do(t, TakeReady);
    }

    /** One statement of revokeIssuedArtifact for a claimed intent. */
    method RevokeClaimedStatement(t: ThreadId, token: Token, queue: seq<Claimed>, job: Job) returns (ok: bool)
      requires Inv(world) && t in world.threads && world.threads[t] == RecoveringOne(token, queue, job)
      modifies this
      ensures Advances(old(world), world) && t in world.threads
      ensures world.threads[t] ==
        if !ok then Releasing(token, queue, job.id)
        else if job.stage == IntentStage then Recovering(token, queue)
        else RecoveringOne(token, queue, job.(stage := NextStage(job.stage)))
      ensures ok ==> job.key in world.db.acked
      ensures Reported(old(faults), faults, ok)
    {
      Interleave(t);
      ghost var before := world;
      ok := RevokeClaimedNow(t, token, queue, job);
      AdvancesTransitive(old(world), before, world);
    }

    method RevokeClaimedNow(t: ThreadId, token: Token, queue: seq<Claimed>, job: Job) returns (ok: bool)
      requires Inv(world) && t in world.threads && world.threads[t] == RecoveringOne(token, queue, job)
      modifies this
      ensures Advances(old(world), world) && t in world.threads
      ensures world.threads[t] ==
        if !ok then Releasing(token, queue, job.id)
        else if job.stage == IntentStage then Recovering(token, queue)
        else RecoveringOne(token, queue, job.(stage := NextStage(job.stage)))
      ensures ok ==> job.key in world.db.acked
      ensures Reported(old(faults), faults, ok)
    {
      var outcome := AnyOutcome();
      assert Holds(world.db, t, world.threads[t]);
      RecoveringGoesOn(world.db, t, token, queue, job, outcome);
      Do(t, Move.Revoke(outcome));
      ok := outcome == Done;
    }

    /** revokeIssuedArtifact without the mark: the claim found the intent ready, or made it ready. */
    method RevokeClaimed(t: ThreadId, token: Token, queue: seq<Claimed>, job: Job) returns (ok: bool)
      requires Inv(world) && t in world.threads && world.threads[t] == RecoveringOne(token, queue, job)
      requires job.stage == CallStage
      modifies this
      ensures Advances(old(world), world) && t in world.threads
      ensures world.threads[t] == if ok then Recovering(token, queue) else Releasing(token, queue, job.id)
      ensures ok ==> job.key in world.db.acked
      ensures Reported(old(faults), faults, ok)
    {
      ok := RevokeClaimedStatement(t, token, queue, job);
      if !ok { return; }
      ghost var before := world;
      ok := RevokeClaimedStatement(t, token, queue, job.(stage := RowStage));
      AdvancesTransitive(old(world), before, world);
      if !ok { return; }
      before := world;
      ok := RevokeClaimedStatement(t, token, queue, job.(stage := IntentStage));
      AdvancesTransitive(old(world), before, world);
    }

    /** ReleaseRevocationIntentClaim after an error; its own error is ignored. */
    method ReleaseClaimed(t: ThreadId, token: Token, queue: seq<Claimed>, id: IntentId)
      requires Inv(world) && t in world.threads && world.threads[t] == Releasing(token, queue, id)
      modifies this
      ensures Advances(old(world), world) && faults >= old(faults)
      ensures t in world.threads && world.threads[t] == Recovering(token, queue)
      ensures faults == old(faults) ==> forall k :: !Leased(world.db.intents, k, id, token)
    {
      Interleave(t);
      ghost var before := world;
      ReleaseNow(t, token, queue, id);
      AdvancesTransitive(old(world), before, world);
    }

    method ReleaseNow(t: ThreadId, token: Token, queue: seq<Claimed>, id: IntentId)
      requires Inv(world) && t in world.threads && world.threads[t] == Releasing(token, queue, id)
      modifies this
      ensures Advances(old(world), world) && t in world.threads && world.threads[t] == Recovering(token, queue)
      ensures faults >= old(faults)
      ensures faults == old(faults) ==> forall k :: !Leased(world.db.intents, k, id, token)
    {
      var outcome := AnyOutcome();
      Do(t, Release(outcome));
    }

    /**
     The body of the loop of RetryPending. Unless something goes wrong the key is revoked, or its intent was provisional
     and at the moment `at` the claim did not stand any more or a visible row carried the key.
     */
    method RetryOne(t: ThreadId, token: Token, queue: seq<Claimed>) returns (ok: bool, ghost at: World)
      requires Inv(world) && t in world.threads && world.threads[t] == Recovering(token, queue) && |queue| > 0
      modifies this
      ensures Advances(old(world), at) && Advances(at, world)
      ensures t in world.threads && world.threads[t] == Recovering(token, queue[1..])
      ensures ok ==> DealtWith(world.db, at.db, token, queue[0])
      ensures Reported(old(faults), faults, ok)
    {
      var shouldRevoke := true;
      ok := true;
      at := world;
      AdvancesSelf(world);
      if queue[0].state == Provisional {
        ok, shouldRevoke, at := ResolveProvisional(t, token, queue);
      } else {
        TakeReadyIntent(t, token, queue);
      }
      ghost var before := world;
      if ok && shouldRevoke {
        ok := RevokeClaimed(t, token, queue[1..], Job(queue[0].key, queue[0].id, CallStage));
        AdvancesTransitive(at, before, world);
      }
      before := world;
      if !ok {
        ReleaseClaimed(t, token, queue[1..], queue[0].id);
        AdvancesTransitive(at, before, world);
      }
      AdvancesTransitive(old(world), at, world);
    }

    /**
     RetryPending, which claims at the moment `at`: every claimed intent is tried. Unless something goes wrong each of
     them is dealt with, and when fewer than 100 were claimed so is every intent that was due; in particular every
     ready intent that nobody had leased ends with its key revoked.
     */
    method RetryPending(t: ThreadId)
      returns (claimed: seq<Claimed>, ok: bool, token: Token, ghost at: World, ghost moments: seq<World>)
      requires Inv(world) && t !in world.threads
      modifies this
      ensures Advances(old(world), world) && Advances(old(world), at) && t !in world.threads
      ensures Reported(old(faults), faults, ok)
      ensures ok ==> AllDealtWith(world.db, at, moments, token, claimed)
      ensures ok && |claimed| < 100 ==> forall k ::
        && k in at.db.intents && (at.db.intents[k].state == Ready || at.db.intents[k].readyAfter <= old(world).db.now)
        && (at.db.intents[k].lease == Free || at.db.intents[k].lease.expires <= old(world).db.now)
        ==> Claimed(k, at.db.intents[k].id, at.db.intents[k].state) in claimed
      ensures ok && |claimed| < 100 ==> forall k ::
        && k in at.db.intents && at.db.intents[k].state == Ready
        && (at.db.intents[k].lease == Free || at.db.intents[k].lease.expires <= old(world).db.now)
        ==> k in world.db.acked
    {
      moments := [];
      ok, token, claimed, at := ClaimIntents(t);
      AdvancesTransitive(old(world), at, world);
      if !ok { return; }
      ghost var before := world;
      ok, moments := RetryClaimed(t, token, claimed, at);
      AdvancesTransitive(old(world), before, world);
    }

    /** RetryPending after its claim. */
    method RetryClaimed(t: ThreadId, token: Token, claimed: seq<Claimed>, ghost at: World)
      returns (ok: bool, ghost moments: seq<World>)
      requires Inv(world) && t in world.threads && world.threads[t] == Recovering(token, claimed) && Advances(at, world)
      modifies this
      ensures Advances(old(world), world) && t !in world.threads && Reported(old(faults), faults, ok)
      ensures ok ==> AllDealtWith(world.db, at, moments, token, claimed)
      ensures ok ==> forall c :: c in claimed && c.state == Ready ==> c.key in world.db.acked
    {
      ok, moments := RetryAll(t, token, claimed, at);
      ghost var before := world;
      Do(t, Finish);
      AdvancesTransitive(old(world), before, world);
      if ok { ReadyAreAcked(before.db, world.db, at, moments, token, claimed); }
    }

    /** One turn of the loop of RetryPending. */
    method RetryNext(t: ThreadId, token: Token, claimed: seq<Claimed>, i: nat, clean: bool, ghost start: World,
                     ghost moments: seq<World>)
      returns (ok: bool, ghost longer: seq<World>)
      requires i < |claimed| && Inv(world) && t in world.threads && world.threads[t] == Recovering(token, claimed[i..])
      requires Advances(start, world) && (clean ==> AllDealtWith(world.db, start, moments, token, claimed[..i]))
      modifies this
      ensures Advances(old(world), world) && t in world.threads && world.threads[t] == Recovering(token, claimed[i + 1..])
      ensures ok ==> AllDealtWith(world.db, start, longer, token, claimed[..i + 1])
      ensures faults >= old(faults) && (ok <==> clean && faults == old(faults))
    {
      ghost var before, at := world, world;
      var fine;
      fine, at := RetryOne(t, token, claimed[i..]);
      AdvancesTransitive(before, at, world);
      AdvancesTransitive(start, before, at);
      ok, longer := clean && fine, moments + [at];
      if ok { OneMoreDealtWith(before.db, world.db, start, moments, at, token, claimed, i); }
      assert claimed[i..][1..] == claimed[i + 1..];
    }

    /** The loop of RetryPending. */
    method RetryAll(t: ThreadId, token: Token, claimed: seq<Claimed>, ghost start: World)
      returns (ok: bool, ghost moments: seq<World>)
      requires Inv(world) && t in world.threads && world.threads[t] == Recovering(token, claimed) && Advances(start, world)
      modifies this
      ensures Advances(old(world), world) && t in world.threads && world.threads[t] == Recovering(token, [])
      ensures ok ==> AllDealtWith(world.db, start, moments, token, claimed)
      ensures Reported(old(faults), faults, ok)
    {
      var i := 0;
      ok, moments := true, [];
      AdvancesSelf(world);
      assert claimed[0..] == claimed;
      while i < |claimed|
        invariant 0 <= i <= |claimed| && Advances(old(world), world) && Advances(start, world)
        invariant t in world.threads && world.threads[t] == Recovering(token, claimed[i..])
        invariant ok ==> AllDealtWith(world.db, start, moments, token, claimed[..i])
        invariant Reported(old(faults), faults, ok)
      {
        ghost var before := world;
        ok, moments := RetryNext(t, token, claimed, i, ok, start, moments);
        AdvancesTransitive(old(world), before, world);
        AdvancesTransitive(start, before, world);
        i := i + 1;
      }
      assert claimed[..|claimed|] == claimed && claimed[|claimed|..] == [];
    }

  }

  predicate DistinctClaims(claimed: seq<Claimed>) {
    forall i, j :: 0 <= i < j < |claimed| ==> claimed[i].key != claimed[j].key
  }

  /** Ready, or provisional long enough, and leased to nobody any more. */
  predicate DueAt(intent: Intent, time: nat) {
    && (intent.state == Ready || (intent.state == Provisional && intent.readyAfter <= time))
    && (intent.lease == Free || intent.lease.expires <= time)
  }

  /** ORDER BY ready_after, intent_id. */
  predicate NotLater(a: Intent, b: Intent) {
    a.readyAfter < b.readyAfter || (a.readyAfter == b.readyAfter && a.id <= b.id)
  }

  /** The keys of due intents, in order, each once, and none that is left out comes before one of them. */
  predicate FirstDue(intents: map<Key, Intent>, time: nat, keys: seq<Key>) {
    && (forall i, j :: 0 <= i < j < |keys| ==> keys[i] != keys[j])
    && (forall i :: 0 <= i < |keys| ==> keys[i] in intents && Claimable(intents[keys[i]], time))
    && (forall i, j :: 0 <= i < j < |keys| ==> NotLater(intents[keys[i]], intents[keys[j]]))
    && (forall i, k :: 0 <= i < |keys| && k in intents && Claimable(intents[k], time) && k !in keys ==>
          NotLater(intents[keys[i]], intents[k]))
  }

  /** The claim is in order, and no due intent that it leaves out was due before one that it has. */
  ghost predicate FirstClaimed(db: Db, time: nat, claimed: seq<Claimed>) {
    && (forall i :: 0 <= i < |claimed| ==> claimed[i].key in db.intents)
    && (forall i, j :: 0 <= i < j < |claimed| ==>
          db.intents[claimed[i].key].readyAfter <= db.intents[claimed[j].key].readyAfter)
    && (forall k :: k in db.intents && DueAt(db.intents[k], time) ==>
          || Claimed(k, db.intents[k].id, db.intents[k].state) in claimed
          || forall i :: 0 <= i < |claimed| ==> NotLater(db.intents[claimed[i].key], db.intents[k]))
  }

  lemma KeysComeFirst(db: Db, keys: seq<Key>, time: nat)
    requires FirstDue(db.intents, time, keys)
    ensures FirstClaimed(db, time, Snapshot(db.intents, keys))
  {
    var claimed := Snapshot(db.intents, keys);
    forall k | k in keys ensures Claimed(k, db.intents[k].id, db.intents[k].state) in claimed {
      var i :| 0 <= i < |keys| && keys[i] == k;
      assert claimed[i] == Claimed(k, db.intents[k].id, db.intents[k].state);
    }
  }

  /** The intent stands as the claim says, and but for its new lease as before. */
  predicate ClaimedNow(before: Db, db: Db, c: Claimed, lease: Lease) {
    && c.key in before.intents && c.id == before.intents[c.key].id && c.state == before.intents[c.key].state
    && c.key in db.intents && db.intents[c.key] == before.intents[c.key].(lease := lease)
  }

  /** The claim does not stand any more, or a visible row carries the key. */
  predicate SparedAt(db: Db, token: Token, c: Claimed) {
    !Leased(db.intents, c.key, c.id, token) || KeptByRow(db, c.key)
  }

  /** Revoked by now, or provisional and spared when it was resolved. */
  predicate DealtWith(db: Db, at: Db, token: Token, c: Claimed) {
    c.key in db.acked || (c.state == Provisional && SparedAt(at, token, c))
  }

  ghost predicate AllDealtWith(db: Db, start: World, moments: seq<World>, token: Token, claimed: seq<Claimed>) {
    |moments| == |claimed| && forall i :: 0 <= i < |claimed| ==>
      Advances(start, moments[i]) && DealtWith(db, moments[i].db, token, claimed[i])
  }

  /** Where a resolution leaves the worker. */
  lemma ResolvedPhases(db: Db, token: Token, queue: seq<Claimed>, outcome: Outcome)
    requires |queue| > 0
    ensures ResolveIn(db, Recovering(token, queue), outcome).thread == Some(
      if outcome != Done then Releasing(token, queue[1..], queue[0].id)
      else if SparedAt(db, token, queue[0]) then Recovering(token, queue[1..])
      else RecoveringOne(token, queue[1..], Job(queue[0].key, queue[0].id, CallStage)))
  {
  }

  lemma KeysAreClaimed(db: Db, t: ThreadId, token: Token, keys: seq<Key>, at: nat)
    requires CanBegin(db, t, Request.RetryPending(token, keys, at))
    ensures var claimed, db' := Snapshot(db.intents, keys), BeginIn(db, t, Request.RetryPending(token, keys, at)).db;
      && DistinctClaims(claimed) && |claimed| == |keys|
      && (forall i :: 0 <= i < |claimed| ==>
            claimed[i].key == keys[i] && ClaimedNow(db, db', claimed[i], Held(token, at + REVOCATION_LEASE)))
      && (forall k :: k in keys ==> Claimed(k, db.intents[k].id, db.intents[k].state) in claimed)
      && (forall k :: k in db.intents && k !in keys ==> k in db'.intents && db'.intents[k] == db.intents[k])
  {
    var claimed := Snapshot(db.intents, keys);
    forall k | k in keys ensures Claimed(k, db.intents[k].id, db.intents[k].state) in claimed {
      var i :| 0 <= i < |keys| && keys[i] == k;
      assert claimed[i] == Claimed(k, db.intents[k].id, db.intents[k].state);
    }
  }

  lemma ReadyAreAcked(before: Db, db: Db, start: World, moments: seq<World>, token: Token, claimed: seq<Claimed>)
    requires AllDealtWith(before, start, moments, token, claimed) && before.acked <= db.acked
    ensures AllDealtWith(db, start, moments, token, claimed)
    ensures forall c :: c in claimed && c.state == Ready ==> c.key in db.acked
  {
  }

  lemma OneMoreDealtWith(db: Db, db': Db, start: World, moments: seq<World>, at: World, token: Token, claimed: seq<Claimed>,
                         i: nat)
    requires i < |claimed| && AllDealtWith(db, start, moments, token, claimed[..i]) && db.acked <= db'.acked
    requires Advances(start, at) && DealtWith(db', at.db, token, claimed[i])
    ensures AllDealtWith(db', start, moments + [at], token, claimed[..i + 1])
  {
    assert claimed[..i + 1] == claimed[..i] + [claimed[i]];
  }

}
